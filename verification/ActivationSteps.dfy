/** Every step of the activation protocol keeps the state invariant, hence so does every run. */
module ActivationSteps {
  import opened Common
  import opened Registry
  import opened RegistryInvariants
  import opened Activation
  import opened ActivationInvariants

  // ---------------------------------------------------------------------------
  // Environment

  lemma ManageKeeps(s: State, m: Mutation)
    requires StateInv(s) && !m.ActivateCall?
    ensures StateInv(s.(db := Apply(s.db, m).0))
  {
    hide Inv, Evolves, Bound, Apply, SlotHolds, AcceptingHolds, LedgerHolds, PhaseHolds, History;
    OtherCallsKeep(s.db, s.sent, m);
    ProcessStays(s.proc, s.db, Apply(s.db, m).0, s.sent);
  }

  /** An activation that expects no version above the floor may run at any time. */
  lemma ActivateWithinFloor(s: State, c: Command, clockAdvanced: bool)
    requires StateInv(s)
    requires Floor(s.proc).Some? ==> c.expected <= Floor(s.proc).value
    ensures
      var (db, out) := RunActivate(s.db, c, clockAdvanced);
      StateInv(s.(db := db)) && Evolves(s.db, db)
      && (out.Done? ==> out.version == c.expected + 1 && Landed(db, c))
  {
    hide Inv, Evolves, Bound, RunActivate, SlotHolds, AcceptingHolds, LedgerHolds, PhaseHolds, Landed, History;
    ActivateRequestKeeps(s.db, s.sent, c, clockAdvanced);
    var db := RunActivate(s.db, c, clockAdvanced).0;
    assert DbMoves(s.db, db, Floor(s.proc));
    ProcessStays(s.proc, s.db, db, s.sent);
  }

  lemma FailStays(s: State, c: Command, code: string)
    requires StateInv(s)
    ensures
      var (db, out) := RunFail(s.db, c, code);
      StateInv(s.(db := db)) && Evolves(s.db, db)
      && (out.Done? ==> Fenced(db, c.setId))
  {
    hide Inv, Evolves, Bound, RunFail, SlotHolds, AcceptingHolds, LedgerHolds, PhaseHolds, Fenced, History;
    FailRequestKeeps(s.db, s.sent, c, code);
    var db := RunFail(s.db, c, code).0;
    assert DbMoves(s.db, db, Floor(s.proc));
    ProcessStays(s.proc, s.db, db, s.sent);
  }

  lemma SentWithinFloor(s: State, r: Request)
    requires StateInv(s) && r in s.sent && r.ActivateRequest?
    ensures Floor(s.proc).Some? ==> r.c.expected <= Floor(s.proc).value
  {
    hide Inv, Bound, SlotHolds, AcceptingHolds, LedgerHolds, PhaseHolds;
  }

  lemma DeliverKeeps(s: State, r: Request, clockAdvanced: bool)
    requires StateInv(s) && r in s.sent
    ensures StateInv(s.(db := Apply(s.db, MutationOf(r, clockAdvanced)).0))
  {
    hide StateInv;
    match r
    case ActivateRequest(c) =>
      SentWithinFloor(s, r);
      ActivateWithinFloor(s, c, clockAdvanced);
    case FailRequest(c, code) => FailStays(s, c, code);
  }

  lemma CrashKeeps(s: State)
    requires StateInv(s)
    ensures StateInv(s.(proc := NO_PROCESS))
    ensures StateInv(s.(proc := NO_PROCESS.(phase := RestoreReading, lock := true)))
  {
    hide Inv, Bound;
  }

  /** A retired generation is none the process still needs, so its directory may go. */
  lemma ReapKeeps(s: State, removed: bool)
    requires StateInv(s) && Next(s, Reap(removed)).Some?
    ensures StateInv(Next(s, Reap(removed)).value)
  {
    hide Inv, Bound, SentUpTo, History, IsSnapshot, NotLoaded, Settled, Fenced, SeenHolds, Landed, Loads;
    hide Apply, CoordinatorStep, AnswerStep;
    var slot := s.proc.slot;
    var gone := slot.retired.value;
    if gone.Some? {
      LoadedSetsDiffer(s.db, gone.value, slot.current.value);
    }
  }

  lemma LoadedSetsDiffer(db: Db, g: Generation, g': Generation)
    requires Inv(db) && Loads(g, History(db)) && Loads(g', History(db)) && g.version != g'.version
    ensures g.setId != g'.setId
  {
    assert PointerInv(db);
    hide Inv;
  }

  lemma ShutdownKeeps(s: State)
    requires StateInv(s) && Next(s, Shutdown).Some?
    ensures StateInv(Next(s, Shutdown).value)
  {
    hide Inv, Bound, DbInv, SentUpTo, Apply, CoordinatorStep, AnswerStep;
  }

  /** The generation an activation holds is not the current one, so its directory stays. */
  lemma CleanupKeeps(s: State, removed: bool)
    requires StateInv(s) && Next(s, CleanupCurrent(removed)).Some?
    ensures StateInv(Next(s, CleanupCurrent(removed)).value)
  {
    hide Apply, CoordinatorStep, AnswerStep, StateInv, CleanCurrent;
    if removed {
      CleanCurrentKeeps(s);
    }
  }

  lemma CleanCurrentKeeps(s: State)
    requires StateInv(s) && s.proc.draining && s.proc.slot.retired.None?
    ensures StateInv(s.(proc := CleanCurrent(s.proc)))
  {
    hide Inv, Bound, DbInv, SentUpTo, Settled, History, IsSnapshot, SeenHolds, Landed, Fenced;
  }

  // ---------------------------------------------------------------------------
  // Facts the steps rest on

  lemma BooksOneMore(p: Process)
    requires LedgerHolds(p)
    ensures CanReserve(p.slot) ==> Settled(p.bookings + [Open], Open, true)
  {
  }

  lemma CancelsLast(p: Process)
    requires LedgerHolds(p) && Booked(p.phase)
    ensures Settled(Settle(p.bookings, Cancelled), Open, false)
  {
  }

  lemma BooksSettled(p: Process)
    requires LedgerHolds(p) && Booked(p.phase)
    ensures Settled(Settle(p.bookings, Booking.Committed), Open, false)
  {
  }

  lemma HoldsOneMore(p: Process)
    requires LedgerHolds(p) && !Holding(p.phase) && !p.stopped
    ensures Settled(p.generations + [Held], Held, true)
    ensures Settled(Settle(p.generations + [Held], Installed), Held, false)
  {
  }

  lemma DropsLast(p: Process)
    requires LedgerHolds(p) && Holding(p.phase)
    ensures Settled(Settle(p.generations, Dropped), Held, false)
  {
  }

  lemma CommitsLast(p: Process)
    requires LedgerHolds(p) && Holding(p.phase) && Booked(p.phase)
    ensures Settled(Settle(p.generations, Installed), Held, false)
    ensures Settled(Settle(p.bookings, Booking.Committed), Open, false)
  {
  }

  lemma Sending(sent: set<Request>, r: Request, bound: nat)
    requires SentUpTo(sent, bound) && (r.ActivateRequest? ==> r.c.expected <= bound)
    ensures SentUpTo(sent + {r}, bound)
  {
  }

  lemma SentRaised(sent: set<Request>, bound: nat)
    requires SentUpTo(sent, bound)
    ensures SentUpTo(sent, bound + 1)
  {
  }

  lemma ActiveIsSnapshot(db: Db)
    requires Inv(db)
    ensures IsSnapshot(db.pointer, History(db)) && SnapshotVersion(db.pointer) == |History(db)|
  {
    assert PointerInv(db);
    hide Inv;
    assert History(db)[..|History(db)|] == History(db);
  }

  lemma SnapshotLoads(db: Db, pointer: Pointer)
    requires IsSnapshot(Some(pointer), History(db))
    ensures Loads(Generation(pointer.active, pointer.version), History(db))
  {
  }

  lemma CandidateNotLoaded(db: Db, setId: Uuid)
    requires Inv(db) && setId in db.sets && db.sets[setId].state == Candidate
    ensures setId !in History(db)
  {
    assert StatesFollowHistory(db.sets, History(db)) by {
      assert PointerInv(db);
    }
    hide Inv;
  }

  // ---------------------------------------------------------------------------
  // restore

  lemma RestoreReadingKeeps(s: State, a: Step)
    requires StateInv(s) && s.proc.phase == RestoreReading && RestoreReadingStep(s, a).Some?
    ensures StateInv(RestoreReadingStep(s, a).value)
  {
    hide Inv, Bound, Settled, IsSnapshot, Loads;
    ActiveIsSnapshot(s.db);
  }

  lemma RestoreReadKeeps(s: State, snapshot: Option<Pointer>, a: Step)
    requires StateInv(s) && s.proc.phase == RestoreRead(snapshot) && RestoreReadStep(s, snapshot, a).Some?
    ensures StateInv(RestoreReadStep(s, snapshot, a).value)
  {
    hide DbInv, Settled, SentUpTo, History, Loads;
    BooksOneMore(s.proc);
  }

  lemma RestorePreparingKeeps(s: State, pointer: Pointer, a: Step)
    requires StateInv(s) && s.proc.phase == RestorePreparing(pointer) && RestorePreparingStep(s, pointer, a).Some?
    ensures StateInv(RestorePreparingStep(s, pointer, a).value)
  {
    hide DbInv, Settled, Settle, SentUpTo, History, IsSnapshot, Loads, NotLoaded;
    SnapshotLoads(s.db, pointer);
    CancelsLast(s.proc);
    BooksSettled(s.proc);
    HoldsOneMore(s.proc);
  }

  lemma RestoreDroppingKeeps(s: State, pointer: Pointer, a: Step)
    requires StateInv(s) && s.proc.phase == RestoreDropping(pointer) && RestoreDroppingStep(s, pointer, a).Some?
    ensures StateInv(RestoreDroppingStep(s, pointer, a).value)
  {
    hide DbInv, Settled, Settle, SentUpTo, History, IsSnapshot, Loads, NotLoaded;
    CancelsLast(s.proc);
    DropsLast(s.proc);
  }

  // ---------------------------------------------------------------------------
  // activate

  lemma IdleKeeps(s: State, a: Step)
    requires StateInv(s) && s.proc.phase == Idle && IdleStep(s, a).Some?
    ensures StateInv(IdleStep(s, a).value)
  {
    hide DbInv, Settled, Settle, SentUpTo, History, IsSnapshot, Loads, NotLoaded;
  }

  lemma LoadingKeeps(s: State, c: Command, a: Step)
    requires StateInv(s) && s.proc.phase == Loading(c) && LoadingStep(s, c, a).Some?
    ensures StateInv(LoadingStep(s, c, a).value)
  {
    hide Inv, Bound, Settled, Settle, SentUpTo, History, IsSnapshot, Loads, NotLoaded;
    ActiveIsSnapshot(s.db);
  }

  lemma LoadedKeeps(s: State, c: Command, snapshot: Option<Pointer>, a: Step)
    requires StateInv(s) && s.proc.phase == Loaded(c, snapshot) && LoadedStep(s, c, snapshot, a).Some?
    ensures StateInv(LoadedStep(s, c, snapshot, a).value)
  {
    hide DbInv, Settled, Settle, SentUpTo, History, IsSnapshot, Loads, NotLoaded;
  }

  lemma CandidateReadingKeeps(s: State, c: Command, active: Option<Pointer>, a: Step)
    requires StateInv(s) && s.proc.phase == CandidateReading(c, active) && CandidateReadingStep(s, c, active, a).Some?
    ensures StateInv(CandidateReadingStep(s, c, active, a).value)
  {
    hide Inv, Bound, Settled, SentUpTo, History, Loads;
    if c.setId in s.db.sets && s.db.sets[c.setId].state == Candidate {
      CandidateNotLoaded(s.db, c.setId);
    }
  }

  lemma CandidateReadKeeps(s: State, c: Command, active: Option<Pointer>, a: Step)
    requires StateInv(s) && s.proc.phase == CandidateRead(c, active) && CandidateReadStep(s, c, active, a).Some?
    ensures StateInv(CandidateReadStep(s, c, active, a).value)
  {
    hide DbInv, Settled, Settle, SentUpTo, History, IsSnapshot, Loads, NotLoaded;
    BooksOneMore(s.proc);
  }

  lemma PreparingKeeps(s: State, c: Command, active: Option<Pointer>, a: Step)
    requires StateInv(s) && s.proc.phase == Preparing(c, active) && PreparingStep(s, c, active, a).Some?
    ensures StateInv(PreparingStep(s, c, active, a).value)
  {
    hide StateInv, PreparingStep;
    if a.FinishPrepare? && a.ok && c.setId !in s.proc.directories {
      PreparedKeeps(s, c, active, a);
    } else {
      NotPreparedKeeps(s, c, active, a);
    }
  }

  lemma NotPreparedKeeps(s: State, c: Command, active: Option<Pointer>, a: Step)
    requires StateInv(s) && s.proc.phase == Preparing(c, active) && PreparingStep(s, c, active, a).Some?
    requires a.FinishPrepare? ==> !a.ok || c.setId in s.proc.directories
    ensures StateInv(PreparingStep(s, c, active, a).value)
  {
    hide DbInv, FloorHolds, Settled, History, IsSnapshot, Loads, NotLoaded, FreshProcess, RestoreHolds, SlotHolds, Prepared;
    SendingKeeps(s, c, active, FailRequest(c, "skill_validation_failed"));
  }

  lemma PreparedKeeps(s: State, c: Command, active: Option<Pointer>, a: Step)
    requires StateInv(s) && s.proc.phase == Preparing(c, active) && PreparingStep(s, c, active, a).Some?
    requires a.FinishPrepare? && a.ok && c.setId !in s.proc.directories
    ensures StateInv(PreparingStep(s, c, active, a).value)
  {
    hide DbInv, FloorHolds, Settled, Settle, History, IsSnapshot, Loads, NotLoaded, FreshProcess, RestoreHolds, SlotHolds;
    DirectoriesGrow(s.proc, s.db, c.setId);
    HoldsOneMore(s.proc);
    SendingKeeps(s, c, active, if a.valid then ActivateRequest(c) else FailRequest(c, "skill_validation_failed"));
  }

  lemma DirectoriesGrow(p: Process, db: Db, setId: Uuid)
    requires SlotHolds(p.slot, p.directories + p.cleaned, History(db))
    ensures SlotHolds(p.slot, p.directories + {setId} + p.cleaned, History(db))
  {
    hide History, Loads;
  }

  /** A new request expects the loaded version, so it stays within the floor. */
  lemma SendingKeeps(s: State, c: Command, active: Option<Pointer>, r: Request)
    requires StateInv(s) && r.c == c
    requires s.proc.phase == Preparing(c, active) || s.proc.phase.Polled?
    requires CandidateHolds(s.proc, s.db, c, active)
    ensures DbInv(s.db, s.sent + {r}) && FloorHolds(Some(c.expected), History(s.db), s.sent + {r})
  {
    hide Inv, Bound, SentUpTo, SlotHolds, AcceptingHolds, LedgerHolds, PhaseHolds, IsSnapshot, NotLoaded;
    Sending(s.sent, r, c.expected);
    Sending(s.sent, r, |History(s.db)|);
  }

  lemma MarkingKeeps(s: State, c: Command, active: Option<Pointer>, holding: bool, a: Step)
    requires StateInv(s) && s.proc.phase == Marking(c, active, holding) && MarkingStep(s, c, active, holding, a).Some?
    ensures StateInv(MarkingStep(s, c, active, holding, a).value)
  {
    hide DbInv, Settled, Settle, SentUpTo, History, IsSnapshot, Loads, NotLoaded;
    CancelsLast(s.proc);
  }

  lemma DroppingKeeps(s: State, c: Command, active: Option<Pointer>, a: Step)
    requires StateInv(s) && s.proc.phase == Dropping(c, active) && DroppingStep(s, c, a).Some?
    ensures StateInv(DroppingStep(s, c, a).value)
  {
    hide DbInv, Settled, Settle, SentUpTo, History, IsSnapshot;
    CancelsLast(s.proc);
    DropsLast(s.proc);
  }

  // ---------------------------------------------------------------------------
  // Cleanup, commit phase and reconciliation

  lemma AbandonedKeeps(s: State, c: Command, active: Option<Pointer>, a: Step)
    requires StateInv(s) && s.proc.phase == Abandoned(c, active) && AbandonedStep(s, c, active, a).Some?
    ensures StateInv(AbandonedStep(s, c, active, a).value)
  {
    hide DbInv, Settled, Settle, SentUpTo, History, IsSnapshot, Loads, NotLoaded;
    CancelsLast(s.proc);
    HoldsOneMore(s.proc);
  }

  lemma AbandonedDroppingKeeps(s: State, c: Command, active: Option<Pointer>, a: Step)
    requires StateInv(s) && s.proc.phase == AbandonedDropping(c, active) && DiscardStep(s, c, a).Some?
    ensures StateInv(DiscardStep(s, c, a).value)
  {
    hide DbInv, Settled, Settle, SentUpTo, History, IsSnapshot;
    CancelsLast(s.proc);
    DropsLast(s.proc);
  }

  lemma CommittingKeeps(s: State, c: Command, active: Option<Pointer>, a: Step)
    requires StateInv(s) && s.proc.phase == Committing(c, active) && CommittingStep(s, c, active, a).Some?
    ensures StateInv(CommittingStep(s, c, active, a).value)
  {
    hide DbInv, Settled, Settle, SentUpTo, History, IsSnapshot, Loads, NotLoaded;
  }

  lemma CommitRepliedKeeps(s: State, c: Command, active: Option<Pointer>, reply: Reply, a: Step)
    requires StateInv(s) && s.proc.phase == CommitReplied(c, active, reply) && CommitRepliedStep(s, c, active, reply, a).Some?
    ensures StateInv(CommitRepliedStep(s, c, active, reply, a).value)
  {
    hide DbInv, Settled, Settle, SentUpTo, History, IsSnapshot, NotLoaded;
    CommitsLast(s.proc);
    SentRaised(s.sent, LoadedVersion(s.proc.slot));
  }

  lemma CommitDroppingKeeps(s: State, c: Command, active: Option<Pointer>, a: Step)
    requires StateInv(s) && s.proc.phase == CommitDropping(c, active) && DiscardStep(s, c, a).Some?
    ensures StateInv(DiscardStep(s, c, a).value)
  {
    hide DbInv, Settled, Settle, SentUpTo, History, IsSnapshot;
    CancelsLast(s.proc);
    DropsLast(s.proc);
  }

  lemma ReconcileTopKeeps(s: State, c: Command, active: Option<Pointer>, a: Step)
    requires StateInv(s) && s.proc.phase == ReconcileTop(c, active) && ReconcileTopStep(s, c, active, a).Some?
    ensures StateInv(ReconcileTopStep(s, c, active, a).value)
  {
    hide DbInv, Settled, Settle, SentUpTo, History, IsSnapshot, Loads, NotLoaded;
  }

  lemma PollingKeeps(s: State, c: Command, active: Option<Pointer>, a: Step)
    requires StateInv(s) && s.proc.phase == Polling(c, active) && PollingStep(s, c, active, a).Some?
    ensures StateInv(PollingStep(s, c, active, a).value)
  {
    hide Inv, Bound, Settled, Settle, SentUpTo, History, IsSnapshot, Loads, NotLoaded;
    ActiveIsSnapshot(s.db);
  }

  lemma PolledKeeps(s: State, c: Command, active: Option<Pointer>, seen: Option<Pointer>, target: Option<SetState>, a: Step)
    requires StateInv(s) && s.proc.phase == Polled(c, active, seen, target) && PolledStep(s, c, active, seen, target, a).Some?
    ensures StateInv(PolledStep(s, c, active, seen, target, a).value)
  {
    hide StateInv, PolledStep;
    if SawActivation(c, active, seen, target) {
      PolledInstallKeeps(s, c, active, seen, target, a);
    } else {
      PolledOtherwiseKeeps(s, c, active, seen, target, a);
    }
  }

  lemma PolledInstallKeeps(s: State, c: Command, active: Option<Pointer>, seen: Option<Pointer>, target: Option<SetState>, a: Step)
    requires StateInv(s) && s.proc.phase == Polled(c, active, seen, target) && PolledStep(s, c, active, seen, target, a).Some?
    requires SawActivation(c, active, seen, target)
    ensures StateInv(PolledStep(s, c, active, seen, target, a).value)
  {
    hide DbInv, Settled, Settle, SentUpTo, History, IsSnapshot, NotLoaded, FreshProcess, RestoreHolds, Landed;
    CommitsLast(s.proc);
    SnapshotLoads(s.db, seen.value);
    SentRaised(s.sent, c.expected);
  }

  lemma PolledOtherwiseKeeps(s: State, c: Command, active: Option<Pointer>, seen: Option<Pointer>, target: Option<SetState>, a: Step)
    requires StateInv(s) && s.proc.phase == Polled(c, active, seen, target) && PolledStep(s, c, active, seen, target, a).Some?
    requires !SawActivation(c, active, seen, target)
    ensures StateInv(PolledStep(s, c, active, seen, target, a).value)
  {
    hide DbInv, Settled, Settle, SentUpTo, History, IsSnapshot, NotLoaded, FreshProcess, RestoreHolds, Landed, SawActivation;
    SendingKeeps(s, c, active, FailRequest(c, "artifact_invalid"));
  }

  lemma PollMarkingKeeps(s: State, c: Command, active: Option<Pointer>, a: Step)
    requires StateInv(s) && s.proc.phase == PollMarking(c, active) && PollMarkingStep(s, c, active, a).Some?
    ensures StateInv(PollMarkingStep(s, c, active, a).value)
  {
    hide DbInv, Settled, Settle, SentUpTo, History, IsSnapshot, Loads, NotLoaded;
  }

  lemma ResumingKeeps(s: State, c: Command, active: Option<Pointer>, a: Step)
    requires StateInv(s) && s.proc.phase == Resuming(c, active) && ResumingStep(s, c, a).Some?
    ensures StateInv(ResumingStep(s, c, a).value)
  {
    hide DbInv, Settled, Settle, SentUpTo, History, IsSnapshot;
    CancelsLast(s.proc);
    DropsLast(s.proc);
  }

  // ---------------------------------------------------------------------------
  // Answers from the database

  lemma RepliedKeeps(s: State, c: Command, active: Option<Pointer>, reply: Reply)
    requires StateInv(s) && s.proc.phase == Committing(c, active)
    requires reply.Activated? ==> reply.version == c.expected + 1 && Landed(s.db, c)
    ensures StateInv(s.(proc := s.proc.(phase := CommitReplied(c, active, reply))))
  {
    hide DbInv, Settled, SentUpTo, History, IsSnapshot, Loads, NotLoaded, Landed, FreshProcess, RestoreHolds;
  }

  lemma FailedKeeps(s: State, c: Command, active: Option<Pointer>)
    requires StateInv(s) && s.proc.phase == PollMarking(c, active)
    ensures StateInv(s.(proc := s.proc.(phase := ReconcileTop(c, active))))
    ensures Fenced(s.db, c.setId) ==> StateInv(s.(proc := s.proc.(phase := Resuming(c, active))))
  {
    hide DbInv, Settled, SentUpTo, History, IsSnapshot, Loads, NotLoaded, Landed, FreshProcess, RestoreHolds, Fenced;
  }

  lemma AnswerKeeps(s: State, clockAdvanced: bool)
    requires StateInv(s) && AnswerStep(s, clockAdvanced).Some?
    ensures StateInv(AnswerStep(s, clockAdvanced).value)
  {
    hide StateInv, Activate, MarkFailed, AfterMarking;
    match s.proc.phase
    case Committing(c, active) => CommitAnswerKeeps(s, c, active, clockAdvanced);
    case PollMarking(c, active) => PollMarkAnswerKeeps(s, c, active);
    case Marking(c, active, holding) => MarkAnswerKeeps(s, c, active, holding);
  }

  lemma PollMarkAnswerKeeps(s: State, c: Command, active: Option<Pointer>)
    requires StateInv(s) && s.proc.phase == PollMarking(c, active)
    ensures
      var (db, out) := RunFail(s.db, c, "artifact_invalid");
      StateInv(s.(db := db, proc := s.proc.(phase := if out.Done? then Resuming(c, active) else ReconcileTop(c, active))))
  {
    hide StateInv, MarkFailed;
    FailStays(s, c, "artifact_invalid");
    FailedKeeps(s.(db := RunFail(s.db, c, "artifact_invalid").0), c, active);
  }

  lemma MarkAnswerKeeps(s: State, c: Command, active: Option<Pointer>, holding: bool)
    requires StateInv(s) && s.proc.phase == Marking(c, active, holding)
    ensures
      var db := RunFail(s.db, c, "skill_validation_failed").0;
      StateInv(s.(db := db, proc := AfterMarking(s.proc, c, active, holding)))
  {
    hide StateInv, MarkFailed, AfterMarking;
    FailStays(s, c, "skill_validation_failed");
    MarkingKeeps(s.(db := RunFail(s.db, c, "skill_validation_failed").0), c, active, holding, LoseReply);
  }

  lemma CommitAnswerKeeps(s: State, c: Command, active: Option<Pointer>, clockAdvanced: bool)
    requires StateInv(s) && s.proc.phase == Committing(c, active)
    ensures
      var (db, out) := RunActivate(s.db, c, clockAdvanced);
      StateInv(s.(db := db, proc := s.proc.(phase := CommitReplied(c, active, Classify(out)))))
  {
    hide Inv, Evolves, Bound, RunActivate, SlotHolds, AcceptingHolds, LedgerHolds, Landed, History;
    assert Floor(s.proc) == Some(c.expected);
    hide StateInv;
    ActivateWithinFloor(s, c, clockAdvanced);
    var (db, out) := RunActivate(s.db, c, clockAdvanced);
    RepliedKeeps(s.(db := db), c, active, Classify(out));
  }

  // ---------------------------------------------------------------------------
  // All steps and runs

  lemma CoordinatorStepKeeps(s: State, a: Step)
    requires StateInv(s) && CoordinatorStep(s, a).Some?
    ensures StateInv(CoordinatorStep(s, a).value)
  {
    hide StateInv;
    match s.proc.phase
    case Idle => IdleKeeps(s, a);
    case RestoreReading => RestoreReadingKeeps(s, a);
    case RestoreRead(snapshot) => RestoreReadKeeps(s, snapshot, a);
    case RestorePreparing(pointer) => RestorePreparingKeeps(s, pointer, a);
    case RestoreDropping(pointer) => RestoreDroppingKeeps(s, pointer, a);
    case Loading(c) => LoadingKeeps(s, c, a);
    case Loaded(c, snapshot) => LoadedKeeps(s, c, snapshot, a);
    case CandidateReading(c, active) => CandidateReadingKeeps(s, c, active, a);
    case CandidateRead(c, active) => CandidateReadKeeps(s, c, active, a);
    case Preparing(c, active) => PreparingKeeps(s, c, active, a);
    case Marking(c, active, holding) => MarkingKeeps(s, c, active, holding, a);
    case Dropping(c, active) => DroppingKeeps(s, c, active, a);
    case Abandoned(c, active) => AbandonedKeeps(s, c, active, a);
    case AbandonedDropping(c, active) => AbandonedDroppingKeeps(s, c, active, a);
    case Committing(c, active) => CommittingKeeps(s, c, active, a);
    case CommitReplied(c, active, reply) => CommitRepliedKeeps(s, c, active, reply, a);
    case CommitDropping(c, active) => CommitDroppingKeeps(s, c, active, a);
    case ReconcileTop(c, active) => ReconcileTopKeeps(s, c, active, a);
    case Polling(c, active) => PollingKeeps(s, c, active, a);
    case Polled(c, active, seen, target) => PolledKeeps(s, c, active, seen, target, a);
    case PollMarking(c, active) => PollMarkingKeeps(s, c, active, a);
    case Resuming(c, active) => ResumingKeeps(s, c, active, a);
  }

  lemma NextKeeps(s: State, a: Step)
    requires StateInv(s) && Next(s, a).Some?
    ensures StateInv(Next(s, a).value)
  {
    hide StateInv, Apply, CoordinatorStep, AnswerStep;
    match a
    case Manage(m) => ManageKeeps(s, m);
    case Deliver(r, clockAdvanced) => DeliverKeeps(s, r, clockAdvanced);
    case Crash => CrashKeeps(s);
    case Reap(removed) => ReapKeeps(s, removed);
    case Start => CrashKeeps(s);
    case Shutdown => ShutdownKeeps(s);
    case CleanupCurrent(removed) => CleanupKeeps(s, removed);
    case AnswerRequest(clockAdvanced) => AnswerKeeps(s, clockAdvanced);
    case _ => CoordinatorStepKeeps(s, a);
  }

  lemma {:induction false} ExecKeeps(s: State, steps: seq<Step>)
    requires StateInv(s) && Exec(s, steps).Some?
    ensures StateInv(Exec(s, steps).value)
    decreases |steps|
  {
    if steps != [] {
      NextKeeps(s, steps[0]);
      hide StateInv, Next;
      ExecKeeps(Next(s, steps[0]).value, steps[1..]);
    }
  }
}
