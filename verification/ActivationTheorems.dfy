/**
 Properties of every run of the activation protocol, with lost replies, late and repeated transactions,
 cancelled calls, crashes and restarts.
 */
module ActivationTheorems {
  import opened Common
  import opened Registry
  import opened RegistryInvariants
  import opened Activation
  import opened ActivationInvariants
  import opened ActivationSteps

  ghost predicate Reachable(s: State) {
    exists steps :: Exec(INITIAL, steps) == Some(s)
  }

  lemma ReachableHolds(s: State)
    requires Reachable(s)
    ensures StateInv(s)
  {
    hide StateInv, Exec;
    var steps :| Exec(INITIAL, steps) == Some(s);
    InitialInv();
    ExecKeeps(INITIAL, steps);
  }

  // ---------------------------------------------------------------------------
  // Lockstep

  /** The process has loaded the pointer's active set, or the previous one when it is a version behind. */
  ghost predicate InStep(slot: Slot, pointer: Option<Pointer>) {
    match pointer
    case None => slot.current.None?
    case Some(p) =>
      || slot.current == Some(Generation(p.active, p.version))
      || (p.version == 1 && p.previous.None? && slot.current.None?)
      || (p.previous.Some? && p.version > 0 && slot.current == Some(Generation(p.previous.value, p.version - 1)))
  }

  /**
   Whenever runs are admitted, and as long as the process lives after restoring, the loaded activation
   is the database's or the one before, and no request in flight can add a second one.
   */
  lemma Lockstep(s: State)
    requires Reachable(s) && (s.proc.slot.accepting || s.proc.restored)
    ensures InStep(s.proc.slot, s.db.pointer)
    ensures LoadedVersion(s.proc.slot) <= Version(s.db) <= LoadedVersion(s.proc.slot) + 1
    ensures forall c :: ActivateRequest(c) in s.sent ==> c.expected <= LoadedVersion(s.proc.slot)
  {
    hide Reachable, StateInv;
    ReachableHolds(s);
    assert s.proc.restored && PointerInv(s.db) by {
      RestoredWhenAccepting(s);
    }
    LockstepFromHistory(s);
    hide StatesFollowHistory;
  }

  lemma RestoredWhenAccepting(s: State)
    requires StateInv(s)
    ensures s.proc.slot.accepting ==> s.proc.restored
    ensures PointerInv(s.db)
  {
    hide PhaseHolds, SlotHolds, FloorHolds, LedgerHolds, PointerInv;
  }

  lemma LockstepFromHistory(s: State)
    requires StateInv(s) && s.proc.restored
    ensures FloorHolds(Some(LoadedVersion(s.proc.slot)), History(s.db), s.sent)
    ensures s.proc.slot.current.Some? ==> Loads(s.proc.slot.current.value, History(s.db))
  {
    hide Inv, Bound, SentUpTo, History, LedgerHolds, Loads;
  }

  // ---------------------------------------------------------------------------
  // Admission and the activation lock

  /** No run is admitted while an activation result is unknown, and none by a draining process. */
  lemma NoRunWhileUnknown(s: State)
    requires Reachable(s) && s.proc.slot.accepting
    ensures !ResultUnknown(s.proc.phase) && !s.proc.degraded && !s.proc.draining && s.proc.restored
  {
    ReachableHolds(s);
  }

  /** The lock is held exactly while some task owns it, or has leaked it. */
  lemma LockHasOneOwner(s: State)
    requires Reachable(s)
    ensures s.proc.lock <==> OwnerOf(s.proc.phase) != NoOwner || s.proc.phase.Leaked?
  {
    ReachableHolds(s);
    hide DbInv, PhaseHolds, SlotHolds, FloorHolds, AcceptingHolds, Settled;
  }

  /** A step that passes the lock from one task to another never drops it on the way. */
  lemma LockHandover(s: State, a: Step)
    requires Reachable(s) && Next(s, a).Some?
    requires OwnerOf(s.proc.phase) != NoOwner && OwnerOf(Next(s, a).value.proc.phase) != NoOwner
    ensures s.proc.lock && Next(s, a).value.proc.lock
  {
    ReachableHolds(s);
    NextKeeps(s, a);
    hide Next, DbInv, PhaseHolds, SlotHolds, FloorHolds, AcceptingHolds, Settled;
  }

  /** The lock leaks exactly when the caller is cancelled while its generation is being discarded. */
  lemma LeakCondition(s: State, a: Step)
    requires Next(s, a).Some? && !s.proc.phase.Leaked?
    ensures Next(s, a).value.proc.phase.Leaked? <==> s.proc.phase.Dropping? && a.Cancel?
  {
    hide AnswerStep, CoordinatorStep, Apply;
    if a.AnswerRequest? {
      AnswersFlow(s, a.clockAdvanced);
    } else if Next(s, a) == CoordinatorStep(s, a) {
      StepFlows(s, a);
    }
  }

  /** One task starts another, which goes on under the lock. */
  predicate HandsOver(p: Phase, q: Phase) {
    || (p.Preparing? && (q.Abandoned? || q.Committing?))
    || (p.CommitReplied? && q.ReconcileTop?)
  }

  /**
   Where the code of one task may get to: it stays within the task, starts another, ends, or is cancelled
   while it discards an invalid generation.
   */
  predicate Flows(p: Phase, a: Step, q: Phase) {
    && !q.Down?
    && (q.Leaked? <==> p.Dropping? && a.Cancel?)
    && (if p.Idle? then q.Idle? || q.Loading? else q.Idle? || q.Leaked? || OwnerOf(q) == OwnerOf(p) || HandsOver(p, q))
  }

  lemma AnswersFlow(s: State, clockAdvanced: bool)
    requires AnswerStep(s, clockAdvanced).Some?
    ensures Flows(s.proc.phase, AnswerRequest(clockAdvanced), AnswerStep(s, clockAdvanced).value.proc.phase)
  {
    hide Apply, MutationOf, Classify, CancelReservation, Flows;
    var q := AnswerStep(s, clockAdvanced).value.proc.phase;
    if s.proc.phase.Committing? {
      assert q.CommitReplied?;
    } else if s.proc.phase.PollMarking? {
      assert q.Resuming? || q.ReconcileTop?;
    } else {
      assert s.proc.phase.Marking? && (q.Idle? || q.Dropping?);
    }
    hide AnswerStep;
    AnswerGoes(s.proc.phase, AnswerRequest(clockAdvanced), q);
  }

  lemma AnswerGoes(p: Phase, a: Step, q: Phase)
    requires (p.Committing? && q.CommitReplied?) || (p.Marking? && (q.Idle? || q.Dropping?))
             || (p.PollMarking? && (q.Resuming? || q.ReconcileTop?))
    ensures Flows(p, a, q)
  {
  }

  lemma StepFlows(s: State, a: Step)
    requires CoordinatorStep(s, a).Some?
    ensures Flows(s.proc.phase, a, CoordinatorStep(s, a).value.proc.phase)
  {
    var owner := OwnerOf(s.proc.phase);
    hide *;
    if owner == RestoreCall {
      RestoreFlows(s, a);
    } else if s.proc.phase.Preparing? || s.proc.phase.Marking? || s.proc.phase.Dropping? {
      PrepareFlows(s, a);
    } else if s.proc.phase.CandidateReading? || s.proc.phase.CandidateRead? {
      CandidateFlows(s, a);
    } else if owner == NoOwner {
      IdleFlows(s, a);
    } else if s.proc.phase.Loading? || s.proc.phase.Loaded? {
      AdmissionFlows(s, a);
    } else if s.proc.phase.Polled? {
      PolledFlows(s, a);
    } else if s.proc.phase.ReconcileTop? || s.proc.phase.Polling? {
      PollFlows(s, a);
    } else if owner == ReconcileTask {
      ReconcileFlows(s, a);
    } else if owner == PrepareCleanup {
      AbandonedFlows(s, a);
    } else {
      assert owner == CommitTask by { OtherOwner(s.proc.phase); }
      CommitFlows(s, a);
    }
  }

  lemma OtherOwner(p: Phase)
    ensures OwnerOf(p) == ActivateCallTask ==>
              p.Loading? || p.Loaded? || p.CandidateReading? || p.CandidateRead? || p.Preparing? || p.Marking? || p.Dropping?
  {
  }

  lemma RestoreFlows(s: State, a: Step)
    requires OwnerOf(s.proc.phase) == RestoreCall && CoordinatorStep(s, a).Some?
    ensures Flows(s.proc.phase, a, CoordinatorStep(s, a).value.proc.phase)
  {
    hide Reserve, Prepared, Degrade, CancelReservation, DropGeneration, Install, AdmitRuns, Settle, Consistent, CanCommit;
    hide IdleStep, LoadingStep, LoadedStep, CandidateReadingStep, CandidateReadStep, PreparingStep, MarkingStep, DroppingStep, DiscardStep;
    hide AbandonedStep, CommittingStep, CommitRepliedStep, ReconcileTopStep, PollingStep, PolledStep, PollMarkingStep, ResumingStep;
  }

  lemma IdleFlows(s: State, a: Step)
    requires OwnerOf(s.proc.phase) == NoOwner
    requires CoordinatorStep(s, a).Some?
    ensures Flows(s.proc.phase, a, CoordinatorStep(s, a).value.proc.phase)
  {
    hide Reserve, Prepared, Degrade, CancelReservation, DropGeneration, Install, AdmitRuns, Settle, Consistent, CanCommit;
    hide RestoreReadingStep, RestoreReadStep, RestorePreparingStep, RestoreDroppingStep, PreparingStep, MarkingStep, DroppingStep;
    hide AbandonedStep, CommittingStep, CommitRepliedStep, ReconcileTopStep, PollingStep, PolledStep, PollMarkingStep, ResumingStep;
    hide DiscardStep, SnapshotVersion, CanReserve, LoadingStep, LoadedStep, CandidateReadingStep, CandidateReadStep;
  }


  lemma AdmissionFlows(s: State, a: Step)
    requires s.proc.phase.Loading? || s.proc.phase.Loaded?
    requires CoordinatorStep(s, a).Some?
    ensures Flows(s.proc.phase, a, CoordinatorStep(s, a).value.proc.phase)
  {
    hide LoadingStep, LoadedStep, Flows;
    var p := s.proc.phase;
    if p.Loading? {
      assert CoordinatorStep(s, a) == LoadingStep(s, p.c, a);
      hide CoordinatorStep;
      LoadingGoes(s, p.c, a);
    } else {
      assert CoordinatorStep(s, a) == LoadedStep(s, p.c, p.snapshot, a);
      hide CoordinatorStep;
      LoadedGoes(s, p.c, p.snapshot, a);
    }
    AdmissionGoes(p, a, CoordinatorStep(s, a).value.proc.phase);
  }

  lemma AdmissionGoes(p: Phase, a: Step, q: Phase)
    requires (p.Loading? || p.Loaded?) && (q.Idle? || q.Loaded? || q.CandidateReading?)
    ensures Flows(p, a, q)
  {
  }

  lemma LoadingGoes(s: State, c: Command, a: Step)
    requires LoadingStep(s, c, a).Some?
    ensures LoadingStep(s, c, a).value.proc.phase.Idle? || LoadingStep(s, c, a).value.proc.phase.Loaded?
  {
  }

  lemma LoadedGoes(s: State, c: Command, snapshot: Option<Pointer>, a: Step)
    requires LoadedStep(s, c, snapshot, a).Some?
    ensures
      var q := LoadedStep(s, c, snapshot, a).value.proc.phase;
      q.Idle? || q.CandidateReading?
  {
    hide Consistent, SnapshotVersion, Degrade;
  }
  lemma CandidateFlows(s: State, a: Step)
    requires s.proc.phase.CandidateReading? || s.proc.phase.CandidateRead?
    requires CoordinatorStep(s, a).Some?
    ensures Flows(s.proc.phase, a, CoordinatorStep(s, a).value.proc.phase)
  {
    hide Reserve, Prepared, Degrade, CancelReservation, DropGeneration, Install, AdmitRuns, Settle, Consistent, CanCommit;
    hide RestoreReadingStep, RestoreReadStep, RestorePreparingStep, RestoreDroppingStep, PreparingStep, MarkingStep, DroppingStep;
    hide AbandonedStep, CommittingStep, CommitRepliedStep, ReconcileTopStep, PollingStep, PolledStep, PollMarkingStep, ResumingStep;
    hide DiscardStep, SnapshotVersion, CanReserve, IdleStep, LoadingStep, LoadedStep;
  }

  lemma PrepareFlows(s: State, a: Step)
    requires s.proc.phase.Preparing? || s.proc.phase.Marking? || s.proc.phase.Dropping?
    requires CoordinatorStep(s, a).Some?
    ensures Flows(s.proc.phase, a, CoordinatorStep(s, a).value.proc.phase)
  {
    hide Reserve, Prepared, Degrade, CancelReservation, DropGeneration, Install, AdmitRuns, Settle, Consistent, CanCommit;
    hide RestoreReadingStep, RestoreReadStep, RestorePreparingStep, RestoreDroppingStep;
    hide IdleStep, LoadingStep, LoadedStep, CandidateReadingStep, CandidateReadStep;
    hide AbandonedStep, CommittingStep, CommitRepliedStep, ReconcileTopStep, PollingStep, PolledStep, PollMarkingStep, ResumingStep;
  }

  lemma AbandonedFlows(s: State, a: Step)
    requires OwnerOf(s.proc.phase) == PrepareCleanup
    requires CoordinatorStep(s, a).Some?
    ensures Flows(s.proc.phase, a, CoordinatorStep(s, a).value.proc.phase)
  {
    hide Reserve, Prepared, Degrade, CancelReservation, DropGeneration, Install, AdmitRuns, Settle, Consistent, CanCommit;
    hide RestoreReadingStep, RestoreReadStep, RestorePreparingStep, RestoreDroppingStep;
    hide CommittingStep, CommitRepliedStep, ReconcileTopStep, PollingStep, PolledStep, PollMarkingStep, ResumingStep;
    hide IdleStep, LoadingStep, LoadedStep, CandidateReadingStep, CandidateReadStep, PreparingStep, MarkingStep, DroppingStep;
  }


  lemma CommitFlows(s: State, a: Step)
    requires OwnerOf(s.proc.phase) == CommitTask
    requires CoordinatorStep(s, a).Some?
    ensures Flows(s.proc.phase, a, CoordinatorStep(s, a).value.proc.phase)
  {
    hide Reserve, Prepared, Degrade, CancelReservation, DropGeneration, Install, AdmitRuns, Settle, Consistent, CanCommit;
    hide RestoreReadingStep, RestoreReadStep, RestorePreparingStep, RestoreDroppingStep;
    hide AbandonedStep, ReconcileTopStep, PollingStep, PolledStep, PollMarkingStep, ResumingStep;
    hide IdleStep, LoadingStep, LoadedStep, CandidateReadingStep, CandidateReadStep, PreparingStep, MarkingStep, DroppingStep;
  }

  lemma PollFlows(s: State, a: Step)
    requires s.proc.phase.ReconcileTop? || s.proc.phase.Polling?
    requires CoordinatorStep(s, a).Some?
    ensures Flows(s.proc.phase, a, CoordinatorStep(s, a).value.proc.phase)
  {
    hide Reserve, Prepared, Degrade, CancelReservation, DropGeneration, Install, AdmitRuns, Settle, Consistent, CanCommit;
    hide RestoreReadingStep, RestoreReadStep, RestorePreparingStep, RestoreDroppingStep, SawActivation;
    hide IdleStep, LoadingStep, LoadedStep, CandidateReadingStep, CandidateReadStep, PreparingStep, MarkingStep, DroppingStep, DiscardStep;
    hide PolledStep, PollMarkingStep, ResumingStep, AbandonedStep, CommittingStep, CommitRepliedStep;
  }


  lemma ReconcileFlows(s: State, a: Step)
    requires OwnerOf(s.proc.phase) == ReconcileTask
    requires !s.proc.phase.Polled? && !s.proc.phase.ReconcileTop? && !s.proc.phase.Polling?
    requires CoordinatorStep(s, a).Some?
    ensures Flows(s.proc.phase, a, CoordinatorStep(s, a).value.proc.phase)
  {
    hide Reserve, Prepared, Degrade, CancelReservation, DropGeneration, Install, AdmitRuns, Settle, Consistent, CanCommit;
    hide RestoreReadingStep, RestoreReadStep, RestorePreparingStep, RestoreDroppingStep, SawActivation;
    hide IdleStep, LoadingStep, LoadedStep, CandidateReadingStep, CandidateReadStep, PreparingStep, MarkingStep, DroppingStep, DiscardStep;
    hide PolledStep, ReconcileTopStep, PollingStep, AbandonedStep, CommittingStep, CommitRepliedStep;
  }

  lemma PolledFlows(s: State, a: Step)
    requires s.proc.phase.Polled?
    requires CoordinatorStep(s, a).Some?
    ensures Flows(s.proc.phase, a, CoordinatorStep(s, a).value.proc.phase)
  {
    hide Flows, PolledStep;
    var p := s.proc.phase;
    assert CoordinatorStep(s, a) == PolledStep(s, p.c, p.active, p.seen, p.target, a);
    hide CoordinatorStep;
    PolledGoes(s, p.c, p.active, p.seen, p.target, a);
    ReconcileGoes(p, a, CoordinatorStep(s, a).value.proc.phase);
  }

  lemma ReconcileGoes(p: Phase, a: Step, q: Phase)
    requires p.Polled? && (q.Idle? || q.PollMarking? || q.Resuming? || q.ReconcileTop?)
    ensures Flows(p, a, q)
  {
  }

  lemma PolledGoes(s: State, c: Command, active: Option<Pointer>, seen: Option<Pointer>, target: Option<SetState>, a: Step)
    requires PolledStep(s, c, active, seen, target, a).Some?
    ensures
      var q := PolledStep(s, c, active, seen, target, a).value.proc.phase;
      q.Idle? || q.PollMarking? || q.Resuming? || q.ReconcileTop?
  {
    hide CanCommit, AdmitRuns, Install, SawActivation;
  }

  /** A leaked lock stays held, with its reservation open, until the process ends. */
  lemma {:induction false} LeakLasts(s: State, steps: seq<Step>)
    requires s.proc.phase.Leaked? && Exec(s, steps).Some? && Crash !in steps
    ensures Exec(s, steps).value.proc.phase.Leaked?
    ensures Exec(s, steps).value.proc.lock == s.proc.lock
    ensures Exec(s, steps).value.proc.bookings == s.proc.bookings
    decreases |steps|
  {
    if steps != [] {
      hide Next, Exec;
      UnfoldExec(s, steps);
      LeakNext(s, steps[0]);
      LeakLasts(Next(s, steps[0]).value, steps[1..]);
    }
  }

  lemma LeakNext(s: State, a: Step)
    requires s.proc.phase.Leaked? && Next(s, a).Some? && a != Crash
    ensures Next(s, a).value.proc.phase.Leaked?
    ensures Next(s, a).value.proc.lock == s.proc.lock
    ensures Next(s, a).value.proc.bookings == s.proc.bookings
  {
    hide Apply, MutationOf;
    assert CoordinatorStep(s, a).None? by { LeakedStands(s, a); }
    hide CoordinatorStep;
  }

  lemma LeakedStands(s: State, a: Step)
    requires s.proc.phase.Leaked?
    ensures CoordinatorStep(s, a).None?
  {
  }

  lemma UnfoldExec(s: State, steps: seq<Step>)
    requires steps != []
    ensures Exec(s, steps) == (if Next(s, steps[0]).None? then None else Exec(Next(s, steps[0]).value, steps[1..]))
  {
    hide Next;
  }

  lemma {:induction false} ExecConcat(s: State, xs: seq<Step>, ys: seq<Step>)
    requires Exec(s, xs).Some?
    ensures Exec(s, xs + ys) == Exec(Exec(s, xs).value, ys)
    decreases |xs|
  {
    hide Next;
    if xs == [] {
      assert xs + ys == ys;
    } else {
      assert (xs + ys)[1..] == xs[1..] + ys;
      ExecConcat(Next(s, xs[0]).value, xs[1..], ys);
    }
  }

  lemma ReachableNext(s: State, a: Step)
    requires Reachable(s) && Next(s, a).Some?
    ensures Reachable(Next(s, a).value)
  {
    hide Next;
    var steps :| Exec(INITIAL, steps) == Some(s);
    ExecConcat(INITIAL, steps, [a]);
    assert Exec(Next(s, a).value, [a][1..]) == Some(Next(s, a).value);
  }

  lemma InitialReachable()
    ensures Reachable(INITIAL)
  {
    assert Exec(INITIAL, []) == Some(INITIAL);
  }

  const SERVING := Process(Idle, false, false, false, true, false, EMPTY_SLOT.(accepting := true), {}, {}, [], [])
  const COMMAND := Command(9, 0, 1, 2)

  /** A run that leaks the lock: an invalid generation, and a caller cancelled while it is discarded. */
  lemma LeakReachable() returns (s: State)
    ensures Reachable(s) && s.proc.phase.Leaked? && s.proc.lock && s.proc.slot.reserved
  {
    hide Exec, Apply, Reachable;
    s := PreparingReachable();
    s := Do(s, FinishPrepare(true, false));
    assert s.proc == Prepared(Reserve(SERVING), 9).(lock := true, phase := Marking(COMMAND, None, true));
    s := Do(s, LoseReply);
    s := Do(s, Cancel(false));
  }

  /** A run up to the preparation of a candidate. */
  lemma PreparingReachable() returns (s: State)
    ensures Reachable(s) && s.proc == Reserve(SERVING).(lock := true, phase := Preparing(COMMAND, None))
  {
    hide Exec, Apply, Reachable;
    s := ServingReachable();
    s := Do(s, Call(COMMAND));
    s := Do(s, ReadActive);
    assert s.proc == SERVING.(lock := true, phase := Loaded(COMMAND, None));
    s := Do(s, Proceed(false));
    assert s.proc.phase == CandidateReading(COMMAND, None);
    s := Do(s, ReadCandidate);
    s := Do(s, Proceed(false));
  }

  /** A run up to an idle process beside one candidate set. */
  lemma ServingReachable() returns (s: State)
    ensures Reachable(s) && s.proc == SERVING && s.db.pointer.None?
    ensures 9 in s.db.sets && s.db.sets[9].state == Candidate && s.db.sets[9].items == []
    ensures forall e :: e in s.db.events ==> e.ident == Ident(1, 4, 5, Hash([]))
  {
    hide Exec, Apply, Reachable;
    var db := CandidateDb();
    InitialReachable();
    s := Do(INITIAL, Manage(CreateCall([], Ident(1, 4, 5, Hash([])), 9)));
    s := Do(s, Start);
    s := Do(s, ReadActive);
    s := Do(s, Proceed(false));
  }

  /** One step of a run under construction. */
  lemma Do(s: State, a: Step) returns (t: State)
    requires Reachable(s) && Next(s, a).Some?
    ensures Reachable(t) && t == Next(s, a).value
  {
    ReachableNext(s, a);
    t := Next(s, a).value;
  }

  /** The database after one set was created. */
  lemma CandidateDb() returns (db: Db)
    ensures db == Apply(EMPTY, CreateCall([], Ident(1, 4, 5, Hash([])), 9)).0
    ensures db.pointer.None? && 9 in db.sets && db.sets[9].state == Candidate && db.sets[9].items == []
    ensures forall e :: e in db.events ==> e.ident == Ident(1, 4, 5, Hash([]))
  {
    assert Candidates(EMPTY.sets) == {};
    db := Apply(EMPTY, CreateCall([], Ident(1, 4, 5, Hash([])), 9)).0;
  }

  // ---------------------------------------------------------------------------
  // Conservation

  ghost predicate Final(fates: seq<Fate>, bookings: seq<Booking>) {
    Held !in fates && Open !in bookings
  }

  /**
   Between activations every generation prepared was installed or dropped, and every reservation
   committed or cancelled, unless shutdown stopped a reconciliation.
   */
  lemma Conservation(s: State)
    requires Reachable(s) && s.proc.phase.Idle?
    ensures !s.proc.stopped ==> Final(s.proc.generations, s.proc.bookings)
    ensures s.proc.stopped ==>
              s.proc.draining && |s.proc.generations| > 0 && |s.proc.bookings| > 0
              && Final(s.proc.generations[..|s.proc.generations| - 1], s.proc.bookings[..|s.proc.bookings| - 1])
  {
    hide Reachable, StateInv, LedgerHolds, Final;
    ReachableHolds(s);
    IdleLedger(s);
    AllSettled(s.proc);
  }

  lemma IdleLedger(s: State)
    requires StateInv(s) && s.proc.phase.Idle?
    ensures LedgerHolds(s.proc) && (s.proc.stopped ==> s.proc.draining)
  {
    hide DbInv, PhaseHolds, SlotHolds, FloorHolds, LedgerHolds;
  }

  lemma AllSettled(p: Process)
    requires LedgerHolds(p) && p.phase.Idle?
    ensures !p.stopped ==> Final(p.generations, p.bookings)
    ensures p.stopped ==>
              |p.generations| > 0 && |p.bookings| > 0
              && Final(p.generations[..|p.generations| - 1], p.bookings[..|p.bookings| - 1])
  {
  }

  /** Entries other than the pending value stay, and none is forgotten. */
  ghost predicate OnlySettles<T>(xs: seq<T>, ys: seq<T>, pending: T) {
    |xs| <= |ys| && forall i :: 0 <= i < |xs| && xs[i] != pending ==> ys[i] == xs[i]
  }

  ghost predicate FatesFinal(p: Process, q: Process) {
    OnlySettles(p.generations, q.generations, Held) && OnlySettles(p.bookings, q.bookings, Open)
  }

  /** The calls of the slot one stretch of the coordinator's code may make. */
  ghost predicate SlotMoves(p: Process, a: Step, q: Process) {
    || q.slot == p.slot.(accepting := q.slot.accepting)
    || (CanReserve(p.slot) && q.slot == p.slot.(reserved := true, accepting := q.slot.accepting))
    || (p.slot.reserved && q.bookings == Settle(p.bookings, Cancelled)
        && q.slot == p.slot.(reserved := false, accepting := q.slot.accepting))
    || (CanCommit(p.slot) && q.bookings == Settle(p.bookings, Booking.Committed) && q.slot.current.Some?
        && (a.Proceed? || p.phase.RestorePreparing?)
        && q.slot == Slot(q.slot.current, if p.slot.current.Some? || (a.Proceed? && a.leased) then Some(p.slot.current) else None,
                          false, q.slot.accepting))
  }

  /** What the coordinator's own code does to its ledgers, to the drain and to the slot. */
  ghost predicate Proceeds(p: Process, a: Step, q: Process) {
    && FatesFinal(p, q) && SlotMoves(p, a, q)
    && q.draining == p.draining && q.cleaned == p.cleaned && (p.restored ==> q.restored)
  }

  /** At most one generation and one reservation are pending, always the last. */
  lemma OnePending(s: State)
    requires Reachable(s)
    ensures forall i :: 0 <= i < |s.proc.generations| - 1 ==> s.proc.generations[i] != Held
    ensures forall i :: 0 <= i < |s.proc.bookings| - 1 ==> s.proc.bookings[i] != Open
    ensures s.proc.slot.reserved <==> s.proc.bookings != [] && s.proc.bookings[|s.proc.bookings| - 1] == Open
  {
    ReachableHolds(s);
    hide DbInv, PhaseHolds, SlotHolds, FloorHolds, AcceptingHolds;
  }

  /** The set whose directory the coordinator is about to remove. */
  function Discarding(p: Phase): Option<Uuid> {
    match p
    case RestoreDropping(pointer) => Some(pointer.active)
    case Dropping(c, _) => Some(c.setId)
    case AbandonedDropping(c, _) => Some(c.setId)
    case CommitDropping(c, _) => Some(c.setId)
    case Resuming(c, _) => Some(c.setId)
    case _ => None
  }

  /** No discard ever names the directory of the current or the retired generation. */
  lemma DiscardSparesLoaded(s: State)
    requires Reachable(s) && Discarding(s.proc.phase).Some?
    ensures s.proc.slot.current.Some? ==> s.proc.slot.current.value.setId != Discarding(s.proc.phase).value
    ensures s.proc.slot.retired.None?
  {
    ReachableHolds(s);
    hide Inv, Bound, SentUpTo, AcceptingHolds, Settled, History, IsSnapshot;
  }

  /**
   The directories of the current and the retired generation are there until shutdown cleans the current
   one up, and then nothing is missing but what it cleaned.
   */
  lemma LoadedDirectoriesPresent(s: State)
    requires Reachable(s)
    ensures s.proc.slot.current.Some? ==> s.proc.slot.current.value.setId in s.proc.directories + s.proc.cleaned
    ensures s.proc.slot.retired.Some? && s.proc.slot.retired.value.Some? ==>
              s.proc.slot.retired.value.value.setId in s.proc.directories + s.proc.cleaned
    ensures s.proc.cleaned != {} ==> s.proc.draining && !s.proc.slot.accepting
  {
    ReachableHolds(s);
    hide DbInv, PhaseHolds, FloorHolds, LedgerHolds, Loads;
  }

  /** Where the current generation can be cleaned up no run is admitted, nor ever after while the process lives. */
  lemma CleanupAdmitsNobody(s: State, removed: bool, steps: seq<Step>)
    requires Reachable(s) && Next(s, CleanupCurrent(removed)).Some?
    requires Crash !in steps && Exec(Next(s, CleanupCurrent(removed)).value, steps).Some?
    ensures !s.proc.slot.accepting
    ensures !Exec(Next(s, CleanupCurrent(removed)).value, steps).value.proc.slot.accepting
  {
    hide Reachable, Exec, StateInv;
    NoRunWhileDraining(s);
    var t := Next(s, CleanupCurrent(removed)).value;
    ReachableNext(s, CleanupCurrent(removed));
    assert t.proc.draining;
    hide Next;
    ReachableHolds(t);
    DrainingLasts(t, steps);
    ReachableExec(t, steps);
    NoRunWhileDraining(Exec(t, steps).value);
  }

  lemma NoRunWhileDraining(s: State)
    requires Reachable(s)
    ensures s.proc.slot.accepting ==> !s.proc.draining
  {
    hide Reachable;
    if s.proc.slot.accepting {
      NoRunWhileUnknown(s);
    }
  }

  lemma ReachableExec(s: State, steps: seq<Step>)
    requires Reachable(s) && Exec(s, steps).Some?
    ensures Reachable(Exec(s, steps).value)
  {
    hide Next, Exec;
    var before :| Exec(INITIAL, before) == Some(s);
    ExecConcat(INITIAL, before, steps);
  }

  lemma {:induction false} DrainingLasts(s: State, steps: seq<Step>)
    requires StateInv(s) && s.proc.draining && Crash !in steps && Exec(s, steps).Some?
    ensures Exec(s, steps).value.proc.draining
    decreases |steps|
  {
    if steps != [] {
      hide Exec, Next, StateInv;
      UnfoldExec(s, steps);
      NextKeeps(s, steps[0]);
      DrainingNext(s, steps[0]);
      DrainingLasts(Next(s, steps[0]).value, steps[1..]);
    }
  }

  lemma DrainingNext(s: State, a: Step)
    requires StateInv(s) && s.proc.draining && a != Crash && Next(s, a).Some?
    ensures Next(s, a).value.proc.draining
  {
    hide Next, DbInv, SlotHolds, FloorHolds, Settled;
    assert a != Start by {
      NoStartWhileDraining(s);
    }
    hide StateInv;
    FatesStep(s, a);
  }

  /** What any step but a restart and the reaper's does to the slot. */
  lemma SlotFollows(s: State, a: Step)
    requires Reachable(s) && Next(s, a).Some? && !a.Crash? && !a.Start? && !a.Reap?
    ensures SlotMoves(s.proc, a, Next(s, a).value.proc)
    ensures s.proc.restored ==> Next(s, a).value.proc.restored
    ensures !a.CleanupCurrent? ==> Next(s, a).value.proc.cleaned == s.proc.cleaned
    ensures s.proc.slot.reserved ==> s.proc.bookings != []
    ensures s.proc.phase.RestorePreparing? ==> !s.proc.restored
  {
    hide Next, Reachable, SlotMoves;
    ReachableHolds(s);
    LedgerOf(s);
    hide StateInv;
    FatesStep(s, a);
  }

  /** A process that did not load anything, or cleaned up what it had loaded, admits no run. */
  lemma RestoredOrClosed(s: State)
    requires Reachable(s)
    ensures s.proc.slot.accepting ==> s.proc.restored && s.proc.cleaned == {}
  {
    hide Reachable;
    ReachableHolds(s);
    hide DbInv, SlotHolds, FloorHolds, LedgerHolds, PhaseHolds;
  }

  lemma LedgerOf(s: State)
    requires StateInv(s)
    ensures LedgerHolds(s.proc)
    ensures s.proc.slot.reserved ==> s.proc.bookings != []
    ensures s.proc.phase.RestorePreparing? ==> !s.proc.restored
  {
    hide DbInv, SlotHolds, FloorHolds, AcceptingHolds;
  }

  lemma NoStartWhileDraining(s: State)
    requires StateInv(s) && s.proc.draining
    ensures Next(s, Start).None?
  {
    hide DbInv, SlotHolds, FloorHolds, LedgerHolds, Apply, CoordinatorStep, AnswerStep;
  }


  // ---------------------------------------------------------------------------
  // Unknown results

  lemma StatesOf(db: Db)
    requires Inv(db)
    ensures StatesFollowHistory(db.sets, History(db)) && EventInv(db)
  {
    assert PointerInv(db);
  }

  lemma ActivationsNameHistory(db: Db, setId: Uuid)
    requires EventInv(db) && setId !in History(db)
    ensures forall e :: e in db.events && e.action == ActivateSet ==> e.target != SetTarget(setId)
  {
    forall e | e in db.events && e.action == ActivateSet
      ensures e.target != SetTarget(setId)
    {
      var i := ActivationInHistory(db, e);
      assert EventHolds(db.sets, e) && History(db)[i] in History(db);
    }
  }

  lemma FailuresNameFailed(db: Db, setId: Uuid)
    requires EventInv(db) && setId in db.sets && db.sets[setId].state != Failed
    ensures forall e :: e in db.events && e.action == FailSet ==> e.target != SetTarget(setId)
  {
  }

  /** A failed or discarded set is not in the history, and no activation of it can commit. */
  lemma FailedNeverActivates(db: Db, c: Command, clockAdvanced: bool)
    requires Inv(db) && Fenced(db, c.setId)
    ensures RunActivate(db, c, clockAdvanced).0 == db && RunActivate(db, c, clockAdvanced).1.Rejected?
    ensures c.setId !in History(db)
  {
    hide Inv, History;
    StatesOf(db);
    ActivationsNameHistory(db, c.setId);
  }

  /** Nor can an activated set be marked failed any more. */
  lemma ActivatedNeverFails(db: Db, c: Command, code: string)
    requires Inv(db) && c.setId in History(db)
    ensures RunFail(db, c, code).0 == db && RunFail(db, c, code).1.Rejected?
  {
    hide Inv, History;
    StatesOf(db);
    FailuresNameFailed(db, c.setId);
  }

  /**
   Fencing: once reconciliation goes on with the old generation, the candidate is failed or discarded
   and stays out of the history in every continuation, and its activation request, which may still be
   in flight, is rejected whenever it arrives.
   */
  lemma Fencing(s: State, steps: seq<Step>, clockAdvanced: bool)
    requires Reachable(s) && s.proc.phase.Resuming? && Exec(s, steps).Some?
    ensures
      var c, db := s.proc.phase.c, Exec(s, steps).value.db;
      && Fenced(db, c.setId) && c.setId !in History(db)
      && RunActivate(db, c, clockAdvanced).0 == db && RunActivate(db, c, clockAdvanced).1.Rejected?
  {
    hide Exec, RunActivate, Fenced, ProcessHolds, History, Inv, Bound, Reachable;
    var c := s.proc.phase.c;
    ReachableHolds(s);
    ResumingIsFenced(s);
    ExecKeeps(s, steps);
    FencedForever(s, steps, c.setId);
    FailedNeverActivates(Exec(s, steps).value.db, c, clockAdvanced);
  }

  lemma ResumingIsFenced(s: State)
    requires StateInv(s) && s.proc.phase.Resuming?
    ensures Fenced(s.db, s.proc.phase.c.setId)
  {
    hide DbInv, SlotHolds, FloorHolds, AcceptingHolds, LedgerHolds;
  }

  lemma {:induction false} FencedForever(s: State, steps: seq<Step>, setId: Uuid)
    requires StateInv(s) && Fenced(s.db, setId) && Exec(s, steps).Some?
    ensures Fenced(Exec(s, steps).value.db, setId)
    decreases |steps|
  {
    if steps != [] {
      hide StateInv, Exec, Next;
      UnfoldExec(s, steps);
      NextKeeps(s, steps[0]);
      FencedNext(s, steps[0], setId);
      FencedForever(Next(s, steps[0]).value, steps[1..], setId);
    }
  }

  /** Each step changes the database by at most one transaction. */
  lemma DbAfter(s: State, a: Step) returns (m: Mutation)
    requires Next(s, a).Some?
    ensures Next(s, a).value.db == s.db || Next(s, a).value.db == Apply(s.db, m).0
  {
    hide Apply;
    m := ArchiveRevisionCall(0);
    if a.Manage? {
      m := a.m;
    } else if a.Deliver? {
      m := MutationOf(a.r, a.clockAdvanced);
    } else if a.AnswerRequest? {
      hide *;
      m := AnsweredMutation(s, a.clockAdvanced);
    } else if !a.Crash? && !a.Reap? && !a.Start? && !a.Shutdown? && !a.CleanupCurrent? {
      CoordinatorLeavesDb(s, a);
    }
  }

  lemma AnsweredMutation(s: State, clockAdvanced: bool) returns (m: Mutation)
    requires AnswerStep(s, clockAdvanced).Some?
    ensures AnswerStep(s, clockAdvanced).value.db == Apply(s.db, m).0
  {
    hide Apply, MutationOf, AfterMarking, Classify;
    var p := s.proc.phase;
    m := MutationOf(
      if p.Committing? then ActivateRequest(p.c)
      else FailRequest(p.c, if p.PollMarking? then "artifact_invalid" else "skill_validation_failed"),
      clockAdvanced);
  }

  lemma CoordinatorLeavesDb(s: State, a: Step)
    requires CoordinatorStep(s, a).Some?
    ensures CoordinatorStep(s, a).value.db == s.db
  {
    hide Reserve, Prepared, Degrade, CancelReservation, DropGeneration, Install, AdmitRuns, Release, Settle;
    hide Consistent, CanCommit, CanReserve, SawActivation, SnapshotVersion, AfterMarking;
  }

  lemma FencedNext(s: State, a: Step, setId: Uuid)
    requires StateInv(s) && Fenced(s.db, setId) && Next(s, a).Some?
    ensures Fenced(Next(s, a).value.db, setId)
  {
    hide Next, Apply, Inv;
    var m := DbAfter(s, a);
    ApplyKeeps(s.db, m);
  }

  /** If the activation did commit, the next poll sees it and installs it. */
  lemma CommittedIsInstalled(s: State, c: Command, active: Option<Pointer>, leased: bool)
    requires Reachable(s) && s.proc.phase == Polling(c, active) && Landed(s.db, c)
    ensures Next(s, Poll).Some? && Next(Next(s, Poll).value, Proceed(leased)).Some?
    ensures
      var t := Next(Next(s, Poll).value, Proceed(leased)).value.proc;
      && t.slot.current == Some(Generation(c.setId, c.expected + 1))
      && t.phase.Idle? && !t.lock && !t.degraded && t.slot.accepting == !t.draining
  {
    ReachableHolds(s);
    hide ProcessHolds, DbInv;
    LandedIsLast(s, c, active);
    PollsActive(s, c, active);
    PolledInstalls(Next(s, Poll).value, c, active, leased);
  }

  /** Nothing landed beyond the activation whose result is unknown. */
  lemma LandedIsLast(s: State, c: Command, active: Option<Pointer>)
    requires StateInv(s) && s.proc.phase == Polling(c, active) && Landed(s.db, c)
    ensures s.db.pointer == Some(Pointer(c.setId, PreviousOf(active), c.expected + 1))
    ensures c.setId in s.db.sets && s.db.sets[c.setId].state == Active
    ensures CanCommit(s.proc.slot)
  {
    hide StateInv, History, IsSnapshot;
    PollingFacts(s, c, active);
    HistoryOf(s);
    LastOfHistory(s.db, c, active);
  }

  lemma PollingFacts(s: State, c: Command, active: Option<Pointer>)
    requires StateInv(s) && s.proc.phase == Polling(c, active) && Landed(s.db, c)
    ensures |History(s.db)| == c.expected + 1 && IsSnapshot(active, History(s.db)) && SnapshotVersion(active) == c.expected
    ensures CanCommit(s.proc.slot)
  {
    hide Inv, Bound, SentUpTo, SlotHolds, AcceptingHolds, Settled, IsSnapshot, NotLoaded, History;
  }

  lemma HistoryOf(s: State)
    requires StateInv(s)
    ensures StatesFollowHistory(s.db.sets, History(s.db)) && s.db.pointer == PointerOf(History(s.db))
  {
    hide ProcessHolds, Bound, SentUpTo;
    StatesOf(s.db);
    assert PointerInv(s.db);
  }

  lemma LastOfHistory(db: Db, c: Command, active: Option<Pointer>)
    requires StatesFollowHistory(db.sets, History(db)) && db.pointer == PointerOf(History(db))
    requires |History(db)| == c.expected + 1 && History(db)[c.expected] == c.setId
    requires IsSnapshot(active, History(db)) && SnapshotVersion(active) == c.expected
    ensures db.pointer == Some(Pointer(c.setId, PreviousOf(active), c.expected + 1))
    ensures c.setId in db.sets && db.sets[c.setId].state == Active
  {
    var h := History(db);
    hide History;
    assert h[..c.expected] == h[..|h| - 1];
  }

  lemma PollsActive(s: State, c: Command, active: Option<Pointer>)
    requires s.proc.phase == Polling(c, active)
    requires c.setId in s.db.sets && s.db.sets[c.setId].state == Active
    ensures Next(s, Poll) == Some(s.(proc := s.proc.(phase := Polled(c, active, s.db.pointer, Some(Active)))))
  {
  }

  lemma PolledInstalls(s: State, c: Command, active: Option<Pointer>, leased: bool)
    requires s.proc.phase == Polled(c, active, Some(Pointer(c.setId, PreviousOf(active), c.expected + 1)), Some(Active))
    requires CanCommit(s.proc.slot)
    ensures
      var t := Next(s, Proceed(leased));
      && t.Some? && t.value.proc.slot.current == Some(Generation(c.setId, c.expected + 1))
      && t.value.proc.phase.Idle? && !t.value.proc.lock && !t.value.proc.degraded
      && t.value.proc.slot.accepting == !t.value.proc.draining
  {
    hide Settle;
  }

  /** The two defensive branches of the commit phase never run: the version fits and the slot commits. */
  lemma CommitAlwaysFits(s: State, c: Command, active: Option<Pointer>, version: nat)
    requires Reachable(s) && s.proc.phase == CommitReplied(c, active, Activated(version))
    ensures version == c.expected + 1 && CanCommit(s.proc.slot)
    ensures s.db.pointer.Some? && s.db.pointer.value.version == version && s.db.pointer.value.active == c.setId
  {
    hide Reachable, StateInv, History;
    ReachableHolds(s);
    HistoryOf(s);
    RepliedFacts(s, c, active, version);
  }

  lemma RepliedFacts(s: State, c: Command, active: Option<Pointer>, version: nat)
    requires StateInv(s) && s.proc.phase == CommitReplied(c, active, Activated(version))
    ensures version == c.expected + 1 && CanCommit(s.proc.slot)
    ensures |History(s.db)| == c.expected + 1 && History(s.db)[c.expected] == c.setId
  {
    hide Inv, Bound, SentUpTo, SlotHolds, AcceptingHolds, Settled, IsSnapshot, NotLoaded, History;
  }

  /** A fate once final is never changed, and nothing is forgotten while the process lives. */
  lemma FatesAreFinal(s: State, a: Step)
    requires Reachable(s) && Next(s, a).Some? && !a.Crash? && !a.Start?
    ensures FatesFinal(s.proc, Next(s, a).value.proc)
  {
    ReachableHolds(s);
    hide DbInv, SlotHolds, FloorHolds, AcceptingHolds, PhaseHolds, Next, Settled;
    OnePending(s);
    hide StateInv;
    FatesStep(s, a);
  }

  lemma FatesStep(s: State, a: Step)
    requires LedgerHolds(s.proc)
    requires Next(s, a).Some? && !a.Crash? && !a.Start?
    ensures FatesFinal(s.proc, Next(s, a).value.proc)
    ensures s.proc.draining ==> Next(s, a).value.proc.draining
    ensures !a.Reap? ==> SlotMoves(s.proc, a, Next(s, a).value.proc)
    ensures s.proc.restored ==> Next(s, a).value.proc.restored
    ensures !a.CleanupCurrent? ==> Next(s, a).value.proc.cleaned == s.proc.cleaned
  {
    hide Apply, AnswerStep, CoordinatorStep, LedgerHolds;
    if a.AnswerRequest? {
      FatesAnswer(s, a.clockAdvanced);
    } else if Next(s, a) == CoordinatorStep(s, a) {
      var owner := OwnerOf(s.proc.phase);
      hide *;
      if s.proc.phase.RestoreReading? || s.proc.phase.RestoreRead? {
        FatesRestoreRead(s, a);
      } else if s.proc.phase.RestorePreparing? || s.proc.phase.RestoreDropping? {
        FatesRestore(s, a);
      } else if s.proc.phase.Preparing? || s.proc.phase.Marking? || s.proc.phase.Dropping? {
        FatesPrepare(s, a);
      } else if s.proc.phase.CandidateReading? || s.proc.phase.CandidateRead? {
        FatesCandidate(s, a);
      } else if owner == ActivateCallTask || owner == NoOwner {
        FatesActivate(s, a);
      } else if s.proc.phase.CommitReplied? {
        FatesReplied(s, a);
      } else if s.proc.phase.Polled? {
        FatesPolled(s, a);
      } else if s.proc.phase.ReconcileTop? || s.proc.phase.Polling? {
        FatesPoll(s, a);
      } else if owner == ReconcileTask {
        FatesReconcile(s, a);
      } else {
        FatesCommit(s, a);
      }
    }
  }

  /** Everything the coordinator does to its ledgers only settles what was pending. */
  lemma LedgerMoves(p: Process)
    requires LedgerHolds(p)
    ensures OnlySettles(p.generations, p.generations, Held) && OnlySettles(p.bookings, p.bookings, Open)
    ensures OnlySettles(p.generations, p.generations + [Held], Held)
    ensures OnlySettles(p.generations, Settle(p.generations + [Held], Installed), Held)
    ensures OnlySettles(p.bookings, p.bookings + [Open], Open)
    ensures Holding(p.phase) ==> OnlySettles(p.generations, Settle(p.generations, Dropped), Held)
    ensures Holding(p.phase) ==> OnlySettles(p.generations, Settle(p.generations, Installed), Held)
    ensures Booked(p.phase) ==> OnlySettles(p.bookings, Settle(p.bookings, Cancelled), Open)
    ensures Booked(p.phase) ==> OnlySettles(p.bookings, Settle(p.bookings, Booking.Committed), Open)
  {
  }

  /** An answer moves the process on, or ends a call by cancelling its reservation. */
  lemma AnswerMoves(s: State, clockAdvanced: bool)
    requires AnswerStep(s, clockAdvanced).Some?
    ensures
      var p, q := s.proc, AnswerStep(s, clockAdvanced).value.proc;
      q == p.(phase := q.phase) || (p.phase.Marking? && q == Release(CancelReservation(p)))
  {
    hide Apply, MutationOf, Classify, CancelReservation;
  }

  lemma FatesAnswer(s: State, clockAdvanced: bool)
    requires LedgerHolds(s.proc) && AnswerStep(s, clockAdvanced).Some?
    ensures Proceeds(s.proc, AnswerRequest(clockAdvanced), AnswerStep(s, clockAdvanced).value.proc)
  {
    AnswerMoves(s, clockAdvanced);
    hide AnswerStep, OnlySettles, Settle, Settled;
    LedgerMoves(s.proc);
    ReservedWhenBooked(s.proc);
  }

  lemma FatesRestoreRead(s: State, a: Step)
    requires s.proc.phase.RestoreReading? || s.proc.phase.RestoreRead?
    requires LedgerHolds(s.proc) && CoordinatorStep(s, a).Some?
    ensures Proceeds(s.proc, a, CoordinatorStep(s, a).value.proc)
  {
    hide OnlySettles, Settle, Settled;
    LedgerMoves(s.proc);
    hide IdleStep, LoadingStep, LoadedStep, CandidateReadingStep, CandidateReadStep, PreparingStep, MarkingStep, DroppingStep, DiscardStep;
    hide AbandonedStep, CommittingStep, CommitRepliedStep, ReconcileTopStep, PollingStep, PolledStep, PollMarkingStep, ResumingStep;
    hide RestorePreparingStep, RestoreDroppingStep, Consistent, SawActivation, SnapshotVersion, PreviousOf;
  }

  lemma FatesRestore(s: State, a: Step)
    requires s.proc.phase.RestorePreparing? || s.proc.phase.RestoreDropping?
    requires LedgerHolds(s.proc) && CoordinatorStep(s, a).Some?
    ensures Proceeds(s.proc, a, CoordinatorStep(s, a).value.proc)
  {
    hide RestorePreparingStep, RestoreDroppingStep, Proceeds;
    var p := s.proc.phase;
    if p.RestorePreparing? {
      assert CoordinatorStep(s, a) == RestorePreparingStep(s, p.pointer, a);
      hide CoordinatorStep;
      FatesRestorePreparing(s, p.pointer, a);
    } else {
      assert CoordinatorStep(s, a) == RestoreDroppingStep(s, p.pointer, a);
      hide CoordinatorStep;
      FatesRestoreDropping(s, p.pointer, a);
    }
  }

  lemma ReservedWhenBooked(p: Process)
    requires LedgerHolds(p)
    ensures Booked(p.phase) ==> p.slot.reserved
  {
  }

  lemma Installs(p: Process, a: Step, q: Process)
    requires CanCommit(p.slot) && q.bookings == Settle(p.bookings, Booking.Committed) && q.slot.current.Some?
    requires a.Proceed? || p.phase.RestorePreparing?
    requires q.slot == Slot(q.slot.current, if p.slot.current.Some? || (a.Proceed? && a.leased) then Some(p.slot.current) else None,
                            false, q.slot.accepting)
    ensures SlotMoves(p, a, q)
  {
  }

  lemma SlotStays(p: Process, a: Step, q: Process)
    requires q.slot == p.slot
    ensures SlotMoves(p, a, q)
  {
  }

  lemma Cancels(p: Process, a: Step, q: Process)
    requires p.slot.reserved && q.bookings == Settle(p.bookings, Cancelled)
    requires q.slot == p.slot.(reserved := false, accepting := q.slot.accepting)
    ensures SlotMoves(p, a, q)
  {
  }

  lemma FatesRestorePreparing(s: State, pointer: Pointer, a: Step)
    requires s.proc.phase.RestorePreparing? && LedgerHolds(s.proc) && RestorePreparingStep(s, pointer, a).Some?
    ensures Proceeds(s.proc, a, RestorePreparingStep(s, pointer, a).value.proc)
  {
    hide RestorePreparingStep, FatesFinal, SlotMoves;
    FatesRestorePreparingLedgers(s, pointer, a);
    FatesRestorePreparingSlot(s, pointer, a);
  }

  lemma FatesRestorePreparingLedgers(s: State, pointer: Pointer, a: Step)
    requires s.proc.phase.RestorePreparing? && LedgerHolds(s.proc) && RestorePreparingStep(s, pointer, a).Some?
    ensures FatesFinal(s.proc, RestorePreparingStep(s, pointer, a).value.proc)
  {
    hide OnlySettles, Settle, Settled;
    LedgerMoves(s.proc);
  }

  lemma FatesRestorePreparingSlot(s: State, pointer: Pointer, a: Step)
    requires s.proc.phase.RestorePreparing? && LedgerHolds(s.proc) && RestorePreparingStep(s, pointer, a).Some?
    ensures
      var q := RestorePreparingStep(s, pointer, a).value.proc;
      && SlotMoves(s.proc, a, q)
      && q.draining == s.proc.draining && q.cleaned == s.proc.cleaned && (s.proc.restored ==> q.restored)
  {
    ReservedWhenBooked(s.proc);
    hide RestorePreparingStep, LedgerHolds, SlotMoves;
    var q := RestorePreparingStep(s, pointer, a).value.proc;
    if !a.FinishPrepare? || !a.ok || pointer.active in s.proc.directories {
      RestoreFails(s, pointer, a);
      Cancels(s.proc, a, q);
    } else if a.valid && CanCommit(s.proc.slot) {
      RestoreInstalls(s, pointer, a);
      Installs(s.proc, a, q);
    } else {
      RestoreDrops(s, pointer, a);
      SlotStays(s.proc, a, q);
    }
  }

  lemma RestoreFails(s: State, pointer: Pointer, a: Step)
    requires RestorePreparingStep(s, pointer, a).Some?
    requires !a.FinishPrepare? || !a.ok || pointer.active in s.proc.directories
    ensures RestorePreparingStep(s, pointer, a).value.proc == Release(Degrade(CancelReservation(s.proc)))
  {
    hide Release, Degrade, CancelReservation, Install, Prepared;
  }

  lemma RestoreInstalls(s: State, pointer: Pointer, a: Step)
    requires a.FinishPrepare? && a.ok && pointer.active !in s.proc.directories && a.valid && CanCommit(s.proc.slot)
    ensures
      var r := RestorePreparingStep(s, pointer, a);
      && r.Some? && r.value.proc.bookings == Settle(s.proc.bookings, Booking.Committed)
      && r.value.proc.slot == Slot(Some(Generation(pointer.active, pointer.version)),
                                   if s.proc.slot.current.Some? then Some(s.proc.slot.current) else None, false, true)
      && r.value.proc.draining == s.proc.draining && r.value.proc.cleaned == s.proc.cleaned && r.value.proc.restored
  {
    hide Settle;
  }

  lemma RestoreDrops(s: State, pointer: Pointer, a: Step)
    requires a.FinishPrepare? && a.ok && pointer.active !in s.proc.directories && !(a.valid && CanCommit(s.proc.slot))
    ensures RestorePreparingStep(s, pointer, a).Some?
    ensures RestorePreparingStep(s, pointer, a).value.proc == Prepared(s.proc, pointer.active).(phase := RestoreDropping(pointer))
  {
    hide Release, Degrade, CancelReservation, Install, Prepared;
  }

  lemma FatesRestoreDropping(s: State, pointer: Pointer, a: Step)
    requires s.proc.phase.RestoreDropping? && LedgerHolds(s.proc) && RestoreDroppingStep(s, pointer, a).Some?
    ensures Proceeds(s.proc, a, RestoreDroppingStep(s, pointer, a).value.proc)
  {
    hide OnlySettles, Settle, Settled;
    LedgerMoves(s.proc);
  }

  lemma FatesActivate(s: State, a: Step)
    requires OwnerOf(s.proc.phase) == ActivateCallTask || OwnerOf(s.proc.phase) == NoOwner
    requires !s.proc.phase.Preparing? && !s.proc.phase.Marking? && !s.proc.phase.Dropping?
    requires !s.proc.phase.CandidateReading? && !s.proc.phase.CandidateRead?
    requires LedgerHolds(s.proc) && CoordinatorStep(s, a).Some?
    ensures Proceeds(s.proc, a, CoordinatorStep(s, a).value.proc)
  {
    hide OnlySettles, Settle, Settled;
    LedgerMoves(s.proc);
    hide RestoreReadingStep, RestoreReadStep, RestorePreparingStep, RestoreDroppingStep;
    hide AbandonedStep, CommittingStep, CommitRepliedStep, ReconcileTopStep, PollingStep, PolledStep, PollMarkingStep, ResumingStep;
    hide CandidateReadingStep, CandidateReadStep;
    hide PreparingStep, MarkingStep, DroppingStep, DiscardStep;
    hide Consistent, SawActivation, SnapshotVersion, PreviousOf;
  }

  lemma FatesCandidate(s: State, a: Step)
    requires s.proc.phase.CandidateReading? || s.proc.phase.CandidateRead?
    requires LedgerHolds(s.proc) && CoordinatorStep(s, a).Some?
    ensures Proceeds(s.proc, a, CoordinatorStep(s, a).value.proc)
  {
    hide OnlySettles, Settle, Settled;
    LedgerMoves(s.proc);
    hide RestoreReadingStep, RestoreReadStep, RestorePreparingStep, RestoreDroppingStep;
    hide AbandonedStep, CommittingStep, CommitRepliedStep, ReconcileTopStep, PollingStep, PolledStep, PollMarkingStep, ResumingStep;
    hide IdleStep, LoadingStep, LoadedStep;
    hide PreparingStep, MarkingStep, DroppingStep, DiscardStep;
    hide Consistent, SawActivation, SnapshotVersion, PreviousOf;
  }

  lemma FatesPrepare(s: State, a: Step)
    requires s.proc.phase.Preparing? || s.proc.phase.Marking? || s.proc.phase.Dropping?
    requires LedgerHolds(s.proc) && CoordinatorStep(s, a).Some?
    ensures Proceeds(s.proc, a, CoordinatorStep(s, a).value.proc)
  {
    hide PreparingStep, MarkingStep, DroppingStep, Proceeds;
    var p := s.proc.phase;
    if p.Preparing? {
      assert CoordinatorStep(s, a) == PreparingStep(s, p.c, p.active, a);
      hide CoordinatorStep;
      FatesPreparing(s, p.c, p.active, a);
    } else if p.Marking? {
      assert CoordinatorStep(s, a) == MarkingStep(s, p.c, p.active, p.holding, a);
      hide CoordinatorStep;
      FatesMarking(s, p.c, p.active, p.holding, a);
    } else {
      assert CoordinatorStep(s, a) == DroppingStep(s, p.c, a);
      hide CoordinatorStep;
      FatesDropping(s, p.c, a);
    }
  }

  lemma FatesPreparing(s: State, c: Command, active: Option<Pointer>, a: Step)
    requires s.proc.phase.Preparing? && LedgerHolds(s.proc) && PreparingStep(s, c, active, a).Some?
    ensures Proceeds(s.proc, a, PreparingStep(s, c, active, a).value.proc)
  {
    hide OnlySettles, Settle, Settled;
    LedgerMoves(s.proc);
  }

  lemma FatesMarking(s: State, c: Command, active: Option<Pointer>, holding: bool, a: Step)
    requires s.proc.phase.Marking? && LedgerHolds(s.proc) && MarkingStep(s, c, active, holding, a).Some?
    ensures Proceeds(s.proc, a, MarkingStep(s, c, active, holding, a).value.proc)
  {
    hide OnlySettles, Settle, Settled;
    LedgerMoves(s.proc);
  }

  lemma FatesDropping(s: State, c: Command, a: Step)
    requires s.proc.phase.Dropping? && LedgerHolds(s.proc) && DroppingStep(s, c, a).Some?
    ensures Proceeds(s.proc, a, DroppingStep(s, c, a).value.proc)
  {
    hide OnlySettles, Settle, Settled;
    LedgerMoves(s.proc);
  }

  lemma FatesReplied(s: State, a: Step)
    requires s.proc.phase.CommitReplied?
    requires LedgerHolds(s.proc) && CoordinatorStep(s, a).Some?
    ensures Proceeds(s.proc, a, CoordinatorStep(s, a).value.proc)
  {
    hide CommitRepliedStep, Proceeds, LedgerHolds;
    var p := s.proc.phase;
    assert CoordinatorStep(s, a) == CommitRepliedStep(s, p.c, p.active, p.reply, a);
    hide CoordinatorStep;
    FatesRepliedStep(s, p.c, p.active, p.reply, a);
  }

  lemma FatesRepliedStep(s: State, c: Command, active: Option<Pointer>, reply: Reply, a: Step)
    requires s.proc.phase.CommitReplied? && LedgerHolds(s.proc) && CommitRepliedStep(s, c, active, reply, a).Some?
    ensures Proceeds(s.proc, a, CommitRepliedStep(s, c, active, reply, a).value.proc)
  {
    hide OnlySettles, Settle, Settled;
    LedgerMoves(s.proc);
  }

  lemma FatesCommit(s: State, a: Step)
    requires OwnerOf(s.proc.phase) == PrepareCleanup || OwnerOf(s.proc.phase) == CommitTask
    requires !s.proc.phase.CommitReplied?
    requires LedgerHolds(s.proc) && CoordinatorStep(s, a).Some?
    ensures Proceeds(s.proc, a, CoordinatorStep(s, a).value.proc)
  {
    hide OnlySettles, Settle, Settled;
    LedgerMoves(s.proc);
    hide RestoreReadingStep, RestoreReadStep, RestorePreparingStep, RestoreDroppingStep;
    hide IdleStep, LoadingStep, LoadedStep, CandidateReadingStep, CandidateReadStep, PreparingStep, MarkingStep, DroppingStep;
    hide ReconcileTopStep, PollingStep, PolledStep, PollMarkingStep, ResumingStep;
    hide CommitRepliedStep, Consistent, SawActivation, SnapshotVersion, PreviousOf;
  }

  lemma FatesPolled(s: State, a: Step)
    requires s.proc.phase.Polled?
    requires LedgerHolds(s.proc) && CoordinatorStep(s, a).Some?
    ensures Proceeds(s.proc, a, CoordinatorStep(s, a).value.proc)
  {
    hide PolledStep, Proceeds;
    var p := s.proc.phase;
    assert CoordinatorStep(s, a) == PolledStep(s, p.c, p.active, p.seen, p.target, a);
    hide CoordinatorStep;
    FatesPolledStep(s, p.c, p.active, p.seen, p.target, a);
  }

  lemma FatesPolledStep(s: State, c: Command, active: Option<Pointer>, seen: Option<Pointer>, target: Option<SetState>, a: Step)
    requires s.proc.phase.Polled? && LedgerHolds(s.proc) && PolledStep(s, c, active, seen, target, a).Some?
    ensures Proceeds(s.proc, a, PolledStep(s, c, active, seen, target, a).value.proc)
  {
    hide PolledStep, FatesFinal, SlotMoves;
    FatesPolledStepLedgers(s, c, active, seen, target, a);
    FatesPolledStepSlot(s, c, active, seen, target, a);
  }

  lemma FatesPolledStepLedgers(s: State, c: Command, active: Option<Pointer>, seen: Option<Pointer>, target: Option<SetState>, a: Step)
    requires s.proc.phase.Polled? && LedgerHolds(s.proc) && PolledStep(s, c, active, seen, target, a).Some?
    ensures FatesFinal(s.proc, PolledStep(s, c, active, seen, target, a).value.proc)
  {
    hide OnlySettles, Settle, Settled, SawActivation, PreviousOf;
    LedgerMoves(s.proc);
  }

  predicate PollInstalls(s: State, c: Command, active: Option<Pointer>, seen: Option<Pointer>, target: Option<SetState>) {
    SawActivation(c, active, seen, target) && CanCommit(s.proc.slot)
  }

  lemma PollInstallMoves(s: State, c: Command, active: Option<Pointer>, seen: Option<Pointer>, target: Option<SetState>, a: Step)
    requires PolledStep(s, c, active, seen, target, a).Some? && PollInstalls(s, c, active, seen, target)
    ensures a.Proceed? && PolledStep(s, c, active, seen, target, a).value.proc ==
                          Release(AdmitRuns(Install(s.proc, Generation(c.setId, c.expected + 1), a.leased)))
  {
    hide AdmitRuns, Install, Release, SawActivation, CanCommit;
  }

  lemma PollLeavesSlot(s: State, c: Command, active: Option<Pointer>, seen: Option<Pointer>, target: Option<SetState>, a: Step)
    requires PolledStep(s, c, active, seen, target, a).Some? && !PollInstalls(s, c, active, seen, target)
    ensures
      var q := PolledStep(s, c, active, seen, target, a).value.proc;
      q.slot == s.proc.slot && q.draining == s.proc.draining && q.cleaned == s.proc.cleaned && q.restored == s.proc.restored
  {
    hide AdmitRuns, Install, SawActivation, CanCommit;
  }

  lemma FatesPolledStepSlot(s: State, c: Command, active: Option<Pointer>, seen: Option<Pointer>, target: Option<SetState>, a: Step)
    requires s.proc.phase.Polled? && LedgerHolds(s.proc) && PolledStep(s, c, active, seen, target, a).Some?
    ensures
      var q := PolledStep(s, c, active, seen, target, a).value.proc;
      && SlotMoves(s.proc, a, q)
      && q.draining == s.proc.draining && q.cleaned == s.proc.cleaned && (s.proc.restored ==> q.restored)
  {
    hide Settle, Settled, LedgerHolds, PolledStep;
    if PollInstalls(s, c, active, seen, target) {
      PollInstallMoves(s, c, active, seen, target, a);
    } else {
      PollLeavesSlot(s, c, active, seen, target, a);
    }
  }

  lemma FatesPoll(s: State, a: Step)
    requires s.proc.phase.ReconcileTop? || s.proc.phase.Polling?
    requires LedgerHolds(s.proc) && CoordinatorStep(s, a).Some?
    ensures Proceeds(s.proc, a, CoordinatorStep(s, a).value.proc)
  {
    hide OnlySettles, Settle, Settled;
    LedgerMoves(s.proc);
    hide RestoreReadingStep, RestoreReadStep, RestorePreparingStep, RestoreDroppingStep, AbandonedStep, CommittingStep, CommitRepliedStep;
    hide IdleStep, LoadingStep, LoadedStep, CandidateReadingStep, CandidateReadStep, PreparingStep, MarkingStep, DroppingStep, DiscardStep;
    hide PolledStep, PollMarkingStep, ResumingStep, Consistent, SawActivation, SnapshotVersion, PreviousOf;
  }

  lemma FatesReconcile(s: State, a: Step)
    requires OwnerOf(s.proc.phase) == ReconcileTask
    requires !s.proc.phase.Polled? && !s.proc.phase.ReconcileTop? && !s.proc.phase.Polling?
    requires LedgerHolds(s.proc) && CoordinatorStep(s, a).Some?
    ensures Proceeds(s.proc, a, CoordinatorStep(s, a).value.proc)
  {
    hide OnlySettles, Settle, Settled;
    LedgerMoves(s.proc);
    hide RestoreReadingStep, RestoreReadStep, RestorePreparingStep, RestoreDroppingStep, AbandonedStep, CommittingStep, CommitRepliedStep;
    hide IdleStep, LoadingStep, LoadedStep, CandidateReadingStep, CandidateReadStep, PreparingStep, MarkingStep, DroppingStep, DiscardStep;
    hide PolledStep, ReconcileTopStep, PollingStep, Consistent, SawActivation, SnapshotVersion, PreviousOf;
  }
}
