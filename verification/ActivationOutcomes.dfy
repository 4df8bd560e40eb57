/**
 What one activate call, and one restore, may leave behind: the candidate installed and runs admitted, or
 everything as it was before, whatever else happens while the call is served.
 */
module ActivationOutcomes {
  import opened Common
  import opened Registry
  import opened RegistryInvariants
  import opened Activation
  import opened ActivationInvariants
  import opened ActivationSteps
  import opened ActivationTheorems

  // ---------------------------------------------------------------------------
  // While a call is served

  /** The phases of a call between its acceptance and its end. */
  predicate Serving(phase: Phase) {
    phase.Loading? || phase.Loaded? || OwnerOf(phase) in {ActivateCallTask, PrepareCleanup, CommitTask, ReconcileTask}
  }

  function If<T>(b: bool, x: T): seq<T> {
    if b then [x] else []
  }

  /** The requests a call has sent. */
  ghost predicate Asked(sent: set<Request>, c: Command, phase: Phase, sent': set<Request>) {
    if phase.Marking? || phase.Dropping? then sent' == sent + {FailRequest(c, "skill_validation_failed")}
    else if OwnerOf(phase) == CommitTask then sent' == sent + {ActivateRequest(c)}
    else if OwnerOf(phase) == ReconcileTask then
      sent' == sent + {ActivateRequest(c)} || sent' == sent + {ActivateRequest(c), FailRequest(c, "artifact_invalid")}
    else sent' == sent
  }

  /**
   The generation that runs is the one from before the call; at most one generation is held and one
   reservation open, and the process is degraded exactly while the result of the activation is unknown.
   */
  ghost predicate During(s0: State, c: Command, s: State) {
    var p0, p := s0.proc, s.proc;
    && Serving(p.phase) && p.phase.c == c
    && p.restored && !p.stopped
    && p.slot.current == p0.slot.current
    && p.generations == p0.generations + If(Holding(p.phase), Held)
    && p.bookings == p0.bookings + If(Booked(p.phase), Open)
    && (p.degraded <==> ResultUnknown(p.phase))
    && Asked(s0.sent, c, p.phase, s.sent)
  }

  // ---------------------------------------------------------------------------
  // How a call ends

  /** The candidate runs under the next version, which the database holds, and runs are admitted unless draining. */
  ghost predicate Advances(s0: State, c: Command, t: State) {
    && t.proc.slot.current == Some(Generation(c.setId, c.expected + 1))
    && Landed(t.db, c)
    && t.proc.generations == s0.proc.generations + [Installed]
    && t.proc.bookings == s0.proc.bookings + [Booking.Committed]
    && !t.proc.degraded && !t.proc.slot.reserved && !t.proc.stopped
    && ActivateRequest(c) in t.sent
  }

  /** The generation from before runs on; whatever was prepared is dropped. */
  ghost predicate Keeps(s0: State, t: State) {
    && t.proc.slot.current == s0.proc.slot.current
    && !t.proc.slot.reserved && !t.proc.stopped
    && (t.proc.degraded ==> Version(t.db) == LoadedVersion(s0.proc.slot) + 1
                            && t.proc.generations == s0.proc.generations && t.proc.bookings == s0.proc.bookings)
    && (t.proc.bookings == s0.proc.bookings || t.proc.bookings == s0.proc.bookings + [Cancelled])
    && (t.proc.generations == s0.proc.generations || t.proc.generations == s0.proc.generations + [Dropped])
  }

  /** Shutdown came while the result was unknown: nothing is settled and nobody is admitted. */
  ghost predicate Stops(s0: State, c: Command, t: State) {
    && t.proc.slot.current == s0.proc.slot.current
    && t.proc.stopped && t.proc.draining && t.proc.degraded
    && t.proc.generations == s0.proc.generations + [Held]
    && t.proc.bookings == s0.proc.bookings + [Open]
    && ActivateRequest(c) in t.sent
  }

  ghost predicate Ended(s0: State, c: Command, t: State) {
    && t.proc.restored && !t.proc.lock
    && (t.proc.slot.accepting <==> !t.proc.draining && !t.proc.degraded)
    && (Advances(s0, c, t) || Keeps(s0, t) || Stops(s0, c, t))
  }

  ghost predicate LeakedAt(s0: State, t: State) {
    && t.proc.slot.current == s0.proc.slot.current
    && t.proc.generations == s0.proc.generations + [Dropped]
    && t.proc.bookings == s0.proc.bookings + [Open]
  }

  ghost predicate Follows(s0: State, c: Command, t: State) {
    if t.proc.phase.Idle? then Ended(s0, c, t)
    else if t.proc.phase.Leaked? then LeakedAt(s0, t)
    else During(s0, c, t)
  }

  /** What the ledgers become from the last of their entries. */
  lemma Ledgers(s0: State, c: Command, s: State)
    requires During(s0, c, s)
    ensures Booked(s.proc.phase) ==>
              Settle(s.proc.bookings, Cancelled) == s0.proc.bookings + [Cancelled]
              && Settle(s.proc.bookings, Booking.Committed) == s0.proc.bookings + [Booking.Committed]
    ensures Holding(s.proc.phase) ==>
              Settle(s.proc.generations, Dropped) == s0.proc.generations + [Dropped]
              && Settle(s.proc.generations, Installed) == s0.proc.generations + [Installed]
    ensures !Holding(s.proc.phase) ==> s.proc.generations + [Held] == s0.proc.generations + [Held]
    ensures !Booked(s.proc.phase) ==> s.proc.bookings + [Open] == s0.proc.bookings + [Open]
  {
  }

  lemma ReservedWhileBooked(s: State)
    requires StateInv(s)
    ensures Booked(s.proc.phase) ==> s.proc.slot.reserved && s.proc.slot.retired.None?
    ensures s.proc.phase.Idle? ==> !s.proc.lock
    ensures s.proc.slot.accepting <==> s.proc.restored && !s.proc.draining && !s.proc.degraded
  {
    hide DbInv, PhaseHolds, SlotHolds, FloorHolds, Settled;
  }

  lemma LoadingServes(s0: State, c: Command, s: State, a: Step)
    requires StateInv(s) && During(s0, c, s) && s.proc.phase == Loading(c) && LoadingStep(s, c, a).Some?
    ensures Follows(s0, c, LoadingStep(s, c, a).value)
  {
    hide DbInv, SlotHolds, FloorHolds, Settled, Settle, IsSnapshot, NotLoaded, History, Landed, FreshProcess, RestoreHolds;
    ReservedWhileBooked(s);
    Ledgers(s0, c, s);
  }

  lemma LoadedFacts(s: State, c: Command, snapshot: Option<Pointer>)
    requires StateInv(s) && s.proc.phase == Loaded(c, snapshot)
    ensures Inv(s.db) && s.proc.restored && IsSnapshot(snapshot, History(s.db)) && SnapshotVersion(snapshot) >= LoadedVersion(s.proc.slot)
    ensures s.proc.slot.current.Some? ==> Loads(s.proc.slot.current.value, History(s.db))
    ensures LoadedVersion(s.proc.slot) <= |History(s.db)| <= LoadedVersion(s.proc.slot) + 1
  {
    hide Inv, Bound, LedgerHolds, SentUpTo, Settled, AcceptingHolds, CandidateHolds, CommandHolds, Loads, History;
  }

  /** A pointer that is not what the process loaded is the next activation. */
  lemma AheadByOne(s: State, c: Command, snapshot: Option<Pointer>)
    requires StateInv(s) && s.proc.phase == Loaded(c, snapshot) && !Consistent(s.proc.slot, snapshot)
    ensures Version(s.db) == LoadedVersion(s.proc.slot) + 1
  {
    hide *;
    LoadedFacts(s, c, snapshot);
    ActiveIsSnapshot(s.db);
    var h, slot := History(s.db), s.proc.slot;
    if SnapshotVersion(snapshot) == LoadedVersion(slot) {
      SameVersion(slot, snapshot, h);
    }
    SnapshotWithin(snapshot, h);
    VersionIs(s.db);
  }

  lemma SameVersion(slot: Slot, snapshot: Option<Pointer>, h: seq<Uuid>)
    requires IsSnapshot(snapshot, h) && SnapshotVersion(snapshot) == LoadedVersion(slot)
    requires slot.current.Some? ==> Loads(slot.current.value, h)
    ensures Consistent(slot, snapshot)
  {
  }

  lemma SnapshotWithin(snapshot: Option<Pointer>, h: seq<Uuid>)
    requires IsSnapshot(snapshot, h)
    ensures SnapshotVersion(snapshot) <= |h|
  {
  }

  lemma VersionIs(db: Db)
    ensures Version(db) == SnapshotVersion(db.pointer)
  {
  }

  lemma LoadedServes(s0: State, c: Command, s: State, snapshot: Option<Pointer>, a: Step)
    requires StateInv(s) && During(s0, c, s) && s.proc.phase == Loaded(c, snapshot) && LoadedStep(s, c, snapshot, a).Some?
    ensures Follows(s0, c, LoadedStep(s, c, snapshot, a).value)
  {
    hide DbInv, SlotHolds, FloorHolds, Settled, Settle, IsSnapshot, NotLoaded, History, Landed, FreshProcess, RestoreHolds;
    ReservedWhileBooked(s);
    Ledgers(s0, c, s);
    if !Consistent(s.proc.slot, snapshot) {
      AheadByOne(s, c, snapshot);
    }
    hide Consistent;
  }

  lemma CandidateReadingServes(s0: State, c: Command, s: State, active: Option<Pointer>, a: Step)
    requires StateInv(s) && During(s0, c, s) && s.proc.phase == CandidateReading(c, active) && CandidateReadingStep(s, c, active, a).Some?
    ensures Follows(s0, c, CandidateReadingStep(s, c, active, a).value)
  {
    hide DbInv, SlotHolds, FloorHolds, Settled, Settle, IsSnapshot, NotLoaded, History, Landed, FreshProcess, RestoreHolds;
    ReservedWhileBooked(s);
    Ledgers(s0, c, s);
  }

  lemma CandidateReadServes(s0: State, c: Command, s: State, active: Option<Pointer>, a: Step)
    requires StateInv(s) && During(s0, c, s) && s.proc.phase == CandidateRead(c, active) && CandidateReadStep(s, c, active, a).Some?
    ensures Follows(s0, c, CandidateReadStep(s, c, active, a).value)
  {
    hide DbInv, SlotHolds, FloorHolds, Settled, Settle, IsSnapshot, NotLoaded, History, Landed, FreshProcess, RestoreHolds;
    ReservedWhileBooked(s);
    Ledgers(s0, c, s);
  }

  lemma PreparingServes(s0: State, c: Command, s: State, active: Option<Pointer>, a: Step)
    requires StateInv(s) && During(s0, c, s) && s.proc.phase == Preparing(c, active) && PreparingStep(s, c, active, a).Some?
    ensures Follows(s0, c, PreparingStep(s, c, active, a).value)
  {
    hide DbInv, SlotHolds, FloorHolds, Settled, Settle, IsSnapshot, NotLoaded, History, Landed, FreshProcess, RestoreHolds;
    ReservedWhileBooked(s);
    Ledgers(s0, c, s);
  }

  lemma MarkingServes(s0: State, c: Command, s: State, active: Option<Pointer>, holding: bool, a: Step)
    requires StateInv(s) && During(s0, c, s) && s.proc.phase == Marking(c, active, holding) && MarkingStep(s, c, active, holding, a).Some?
    ensures Follows(s0, c, MarkingStep(s, c, active, holding, a).value)
  {
    hide DbInv, SlotHolds, FloorHolds, Settled, Settle, IsSnapshot, NotLoaded, History, Landed, FreshProcess, RestoreHolds;
    ReservedWhileBooked(s);
    Ledgers(s0, c, s);
  }

  lemma DroppingServes(s0: State, c: Command, s: State, active: Option<Pointer>, a: Step)
    requires StateInv(s) && During(s0, c, s) && s.proc.phase == Dropping(c, active) && DroppingStep(s, c, a).Some?
    ensures Follows(s0, c, DroppingStep(s, c, a).value)
  {
    hide DbInv, SlotHolds, FloorHolds, Settled, Settle, IsSnapshot, NotLoaded, History, Landed, FreshProcess, RestoreHolds;
    ReservedWhileBooked(s);
    Ledgers(s0, c, s);
  }

  lemma AbandonedServes(s0: State, c: Command, s: State, active: Option<Pointer>, a: Step)
    requires StateInv(s) && During(s0, c, s) && s.proc.phase == Abandoned(c, active) && AbandonedStep(s, c, active, a).Some?
    ensures Follows(s0, c, AbandonedStep(s, c, active, a).value)
  {
    hide DbInv, SlotHolds, FloorHolds, Settled, Settle, IsSnapshot, NotLoaded, History, Landed, FreshProcess, RestoreHolds;
    ReservedWhileBooked(s);
    Ledgers(s0, c, s);
  }

  lemma AbandonedDroppingServes(s0: State, c: Command, s: State, active: Option<Pointer>, a: Step)
    requires StateInv(s) && During(s0, c, s) && s.proc.phase == AbandonedDropping(c, active) && DiscardStep(s, c, a).Some?
    ensures Follows(s0, c, DiscardStep(s, c, a).value)
  {
    hide DbInv, SlotHolds, FloorHolds, Settled, Settle, IsSnapshot, NotLoaded, History, Landed, FreshProcess, RestoreHolds;
    ReservedWhileBooked(s);
    Ledgers(s0, c, s);
  }

  lemma CommittingServes(s0: State, c: Command, s: State, active: Option<Pointer>, a: Step)
    requires StateInv(s) && During(s0, c, s) && s.proc.phase == Committing(c, active) && CommittingStep(s, c, active, a).Some?
    ensures Follows(s0, c, CommittingStep(s, c, active, a).value)
  {
    hide DbInv, SlotHolds, FloorHolds, Settled, Settle, IsSnapshot, NotLoaded, History, Landed, FreshProcess, RestoreHolds;
    ReservedWhileBooked(s);
    Ledgers(s0, c, s);
  }

  lemma CommitRepliedServes(s0: State, c: Command, s: State, active: Option<Pointer>, reply: Reply, a: Step)
    requires StateInv(s) && During(s0, c, s) && s.proc.phase == CommitReplied(c, active, reply) && CommitRepliedStep(s, c, active, reply, a).Some?
    ensures Follows(s0, c, CommitRepliedStep(s, c, active, reply, a).value)
  {
    hide DbInv, SlotHolds, FloorHolds, Settled, Settle, IsSnapshot, NotLoaded, History, Landed, FreshProcess, RestoreHolds;
    ReservedWhileBooked(s);
    Ledgers(s0, c, s);
  }

  lemma CommitDroppingServes(s0: State, c: Command, s: State, active: Option<Pointer>, a: Step)
    requires StateInv(s) && During(s0, c, s) && s.proc.phase == CommitDropping(c, active) && DiscardStep(s, c, a).Some?
    ensures Follows(s0, c, DiscardStep(s, c, a).value)
  {
    hide DbInv, SlotHolds, FloorHolds, Settled, Settle, IsSnapshot, NotLoaded, History, Landed, FreshProcess, RestoreHolds;
    ReservedWhileBooked(s);
    Ledgers(s0, c, s);
  }

  lemma ReconcileTopServes(s0: State, c: Command, s: State, active: Option<Pointer>, a: Step)
    requires StateInv(s) && During(s0, c, s) && s.proc.phase == ReconcileTop(c, active) && ReconcileTopStep(s, c, active, a).Some?
    ensures Follows(s0, c, ReconcileTopStep(s, c, active, a).value)
  {
    hide DbInv, SlotHolds, FloorHolds, Settled, Settle, IsSnapshot, NotLoaded, History, Landed, FreshProcess, RestoreHolds;
    ReservedWhileBooked(s);
    Ledgers(s0, c, s);
  }

  lemma PollingServes(s0: State, c: Command, s: State, active: Option<Pointer>, a: Step)
    requires StateInv(s) && During(s0, c, s) && s.proc.phase == Polling(c, active) && PollingStep(s, c, active, a).Some?
    ensures Follows(s0, c, PollingStep(s, c, active, a).value)
  {
    hide DbInv, SlotHolds, FloorHolds, Settled, Settle, IsSnapshot, NotLoaded, History, Landed, FreshProcess, RestoreHolds;
    ReservedWhileBooked(s);
    Ledgers(s0, c, s);
  }

  lemma SeenLands(s: State, c: Command, active: Option<Pointer>, seen: Option<Pointer>, target: Option<SetState>)
    requires StateInv(s) && s.proc.phase == Polled(c, active, seen, target) && SawActivation(c, active, seen, target)
    ensures Landed(s.db, c)
  {
    hide DbInv, SlotHolds, FloorHolds, Settled, LedgerHolds, AcceptingHolds, CandidateHolds, History;
    SnapshotLoads(s.db, seen.value);
  }

  /** A poll that found the activation installs it. */
  lemma PolledInstalls(s: State, c: Command, active: Option<Pointer>, seen: Option<Pointer>, target: Option<SetState>, a: Step)
    requires PolledStep(s, c, active, seen, target, a).Some? && SawActivation(c, active, seen, target) && CanCommit(s.proc.slot)
    ensures a.Proceed? && PolledStep(s, c, active, seen, target, a).value ==
                          s.(proc := Release(AdmitRuns(Install(s.proc, Generation(c.setId, c.expected + 1), a.leased))))
  {
    hide SawActivation, Install, AdmitRuns, Release;
  }

  lemma InstallAdvances(s0: State, c: Command, s: State, leased: bool)
    requires StateInv(s) && During(s0, c, s) && ResultUnknown(s.proc.phase) && Landed(s.db, c)
    ensures Release(AdmitRuns(Install(s.proc, Generation(c.setId, c.expected + 1), leased))).phase.Idle?
    ensures Ended(s0, c, s.(proc := Release(AdmitRuns(Install(s.proc, Generation(c.setId, c.expected + 1), leased)))))
  {
    hide StateInv, Landed, Settle, Keeps, Stops;
    Ledgers(s0, c, s);
  }

  /** Any other outcome of a poll goes on reconciling. */
  lemma PolledGoesOn(s: State, c: Command, active: Option<Pointer>, seen: Option<Pointer>, target: Option<SetState>, a: Step)
    requires PolledStep(s, c, active, seen, target, a).Some? && !SawActivation(c, active, seen, target)
    ensures
      var t := PolledStep(s, c, active, seen, target, a).value;
      && (t.proc == s.proc.(phase := ReconcileTop(c, active)) || t.proc == s.proc.(phase := PollMarking(c, active))
          || t.proc == s.proc.(phase := Resuming(c, active)))
      && (t.sent == s.sent || t.sent == s.sent + {FailRequest(c, "artifact_invalid")})
  {
    hide SawActivation, Install, AdmitRuns;
  }

  lemma PolledServes(s0: State, c: Command, s: State, active: Option<Pointer>, seen: Option<Pointer>, target: Option<SetState>, a: Step)
    requires StateInv(s) && During(s0, c, s) && s.proc.phase == Polled(c, active, seen, target) && PolledStep(s, c, active, seen, target, a).Some?
    ensures Follows(s0, c, PolledStep(s, c, active, seen, target, a).value)
  {
    hide StateInv, During, Follows, Ended, PolledStep, SawActivation, Install, AdmitRuns;
    if SawActivation(c, active, seen, target) {
      SeenLands(s, c, active, seen, target);
      ReservedWhileBooked(s);
      PolledInstalls(s, c, active, seen, target, a);
      InstallAdvances(s0, c, s, a.leased);
      EndedFollows(s0, c, PolledStep(s, c, active, seen, target, a).value);
    } else {
      PolledGoesOn(s, c, active, seen, target, a);
      ReconcilesOn(s0, c, s, active, PolledStep(s, c, active, seen, target, a).value);
    }
  }

  lemma EndedFollows(s0: State, c: Command, t: State)
    requires Ended(s0, c, t) && t.proc.phase.Idle?
    ensures Follows(s0, c, t)
  {
  }

  lemma ReconcilesOn(s0: State, c: Command, s: State, active: Option<Pointer>, t: State)
    requires During(s0, c, s) && s.proc.phase.Polled?
    requires t.proc.phase in {ReconcileTop(c, active), PollMarking(c, active), Resuming(c, active)}
    requires t.proc == s.proc.(phase := t.proc.phase)
    requires t.sent == s.sent || t.sent == s.sent + {FailRequest(c, "artifact_invalid")}
    ensures Follows(s0, c, t)
  {
    hide Ended, LeakedAt;
  }

  lemma PollMarkingServes(s0: State, c: Command, s: State, active: Option<Pointer>, a: Step)
    requires StateInv(s) && During(s0, c, s) && s.proc.phase == PollMarking(c, active) && PollMarkingStep(s, c, active, a).Some?
    ensures Follows(s0, c, PollMarkingStep(s, c, active, a).value)
  {
    hide DbInv, SlotHolds, FloorHolds, Settled, Settle, IsSnapshot, NotLoaded, History, Landed, FreshProcess, RestoreHolds;
    ReservedWhileBooked(s);
    Ledgers(s0, c, s);
  }

  lemma ResumingServes(s0: State, c: Command, s: State, active: Option<Pointer>, a: Step)
    requires StateInv(s) && During(s0, c, s) && s.proc.phase == Resuming(c, active) && ResumingStep(s, c, a).Some?
    ensures Follows(s0, c, ResumingStep(s, c, a).value)
  {
    hide DbInv, SlotHolds, FloorHolds, Settled, Settle, IsSnapshot, NotLoaded, History, Landed, FreshProcess, RestoreHolds;
    ReservedWhileBooked(s);
    Ledgers(s0, c, s);
  }

  /** While a call is served only a crash ends the process; every other step goes on serving or ends the call. */
  lemma AnswerServes(s0: State, c: Command, s: State, clockAdvanced: bool)
    requires StateInv(s) && During(s0, c, s) && AnswerStep(s, clockAdvanced).Some?
    ensures Follows(s0, c, AnswerStep(s, clockAdvanced).value)
  {
    hide DbInv, SlotHolds, FloorHolds, Settled, Settle, IsSnapshot, NotLoaded, History, Landed, FreshProcess, RestoreHolds;
    hide Apply, MutationOf, Classify, PhaseHolds;
    ReservedWhileBooked(s);
    Ledgers(s0, c, s);
  }

  predicate Environment(a: Step) {
    a.Manage? || a.Deliver? || a.Reap? || a.Shutdown? || a.CleanupCurrent?
  }

  lemma EnvironmentServes(s0: State, c: Command, s: State, a: Step)
    requires During(s0, c, s) && Environment(a) && Next(s, a).Some?
    ensures Follows(s0, c, Next(s, a).value)
  {
    hide Apply, MutationOf, AnswerStep, CoordinatorStep;
  }

  lemma DuringServes(s0: State, c: Command, s: State)
    requires During(s0, c, s)
    ensures Serving(s.proc.phase) && s.proc.phase.c == c
  {
  }

  lemma AdmissionServes(s0: State, c: Command, s: State, a: Step)
    requires StateInv(s) && During(s0, c, s) && CoordinatorStep(s, a).Some?
    requires Serving(s.proc.phase) && s.proc.phase.c == c && (s.proc.phase.Loading? || s.proc.phase.Loaded? || s.proc.phase.CandidateReading? || s.proc.phase.CandidateRead?)
    ensures Follows(s0, c, CoordinatorStep(s, a).value)
  {
    hide StateInv, During, Follows, IdleStep, LoadingStep, LoadedStep, CandidateReadingStep, CandidateReadStep, PreparingStep;
    hide MarkingStep, DroppingStep, DiscardStep, AbandonedStep, CommittingStep, CommitRepliedStep, ReconcileTopStep, PollingStep;
    hide PolledStep, PollMarkingStep, ResumingStep, RestoreReadingStep, RestoreReadStep, RestorePreparingStep, RestoreDroppingStep;
    match s.proc.phase
    case Loading(_) => LoadingServes(s0, c, s, a);
    case Loaded(_, snapshot) => LoadedServes(s0, c, s, snapshot, a);
    case CandidateReading(_, active) => CandidateReadingServes(s0, c, s, active, a);
    case CandidateRead(_, active) => CandidateReadServes(s0, c, s, active, a);
  }

  lemma PrepareServes(s0: State, c: Command, s: State, a: Step)
    requires StateInv(s) && During(s0, c, s) && CoordinatorStep(s, a).Some?
    requires Serving(s.proc.phase) && s.proc.phase.c == c && (s.proc.phase.Preparing? || s.proc.phase.Marking? || s.proc.phase.Dropping? || OwnerOf(s.proc.phase) == PrepareCleanup)
    ensures Follows(s0, c, CoordinatorStep(s, a).value)
  {
    hide StateInv, During, Follows, IdleStep, LoadingStep, LoadedStep, CandidateReadingStep, CandidateReadStep, PreparingStep;
    hide MarkingStep, DroppingStep, DiscardStep, AbandonedStep, CommittingStep, CommitRepliedStep, ReconcileTopStep, PollingStep;
    hide PolledStep, PollMarkingStep, ResumingStep, RestoreReadingStep, RestoreReadStep, RestorePreparingStep, RestoreDroppingStep;
    match s.proc.phase
    case Preparing(_, active) => PreparingServes(s0, c, s, active, a);
    case Marking(_, active, holding) => MarkingServes(s0, c, s, active, holding, a);
    case Dropping(_, active) => DroppingServes(s0, c, s, active, a);
    case Abandoned(_, active) => AbandonedServes(s0, c, s, active, a);
    case AbandonedDropping(_, active) => AbandonedDroppingServes(s0, c, s, active, a);
  }

  lemma CommitServes(s0: State, c: Command, s: State, a: Step)
    requires StateInv(s) && During(s0, c, s) && CoordinatorStep(s, a).Some?
    requires Serving(s.proc.phase) && s.proc.phase.c == c && OwnerOf(s.proc.phase) == CommitTask
    ensures Follows(s0, c, CoordinatorStep(s, a).value)
  {
    hide StateInv, During, Follows, IdleStep, LoadingStep, LoadedStep, CandidateReadingStep, CandidateReadStep, PreparingStep;
    hide MarkingStep, DroppingStep, DiscardStep, AbandonedStep, CommittingStep, CommitRepliedStep, ReconcileTopStep, PollingStep;
    hide PolledStep, PollMarkingStep, ResumingStep, RestoreReadingStep, RestoreReadStep, RestorePreparingStep, RestoreDroppingStep;
    match s.proc.phase
    case Committing(_, active) => CommittingServes(s0, c, s, active, a);
    case CommitReplied(_, active, reply) => CommitRepliedServes(s0, c, s, active, reply, a);
    case CommitDropping(_, active) => CommitDroppingServes(s0, c, s, active, a);
  }

  lemma ReconcileServes(s0: State, c: Command, s: State, a: Step)
    requires StateInv(s) && During(s0, c, s) && CoordinatorStep(s, a).Some?
    requires Serving(s.proc.phase) && s.proc.phase.c == c && OwnerOf(s.proc.phase) == ReconcileTask
    ensures Follows(s0, c, CoordinatorStep(s, a).value)
  {
    hide StateInv, During, Follows, IdleStep, LoadingStep, LoadedStep, CandidateReadingStep, CandidateReadStep, PreparingStep;
    hide MarkingStep, DroppingStep, DiscardStep, AbandonedStep, CommittingStep, CommitRepliedStep, ReconcileTopStep, PollingStep;
    hide PolledStep, PollMarkingStep, ResumingStep, RestoreReadingStep, RestoreReadStep, RestorePreparingStep, RestoreDroppingStep;
    match s.proc.phase
    case ReconcileTop(_, active) => ReconcileTopServes(s0, c, s, active, a);
    case Polling(_, active) => PollingServes(s0, c, s, active, a);
    case Polled(_, active, seen, target) => PolledServes(s0, c, s, active, seen, target, a);
    case PollMarking(_, active) => PollMarkingServes(s0, c, s, active, a);
    case Resuming(_, active) => ResumingServes(s0, c, s, active, a);
  }

  lemma CoordinatorServes(s0: State, c: Command, s: State, a: Step)
    requires StateInv(s) && During(s0, c, s) && CoordinatorStep(s, a).Some?
    ensures Follows(s0, c, CoordinatorStep(s, a).value)
  {
    DuringServes(s0, c, s);
    OtherOwner(s.proc.phase);
    hide StateInv, During, Follows, CoordinatorStep;
    var owner := OwnerOf(s.proc.phase);
    if owner == CommitTask {
      CommitServes(s0, c, s, a);
    } else if owner == ReconcileTask {
      ReconcileServes(s0, c, s, a);
    } else if owner == PrepareCleanup || s.proc.phase.Preparing? || s.proc.phase.Marking? || s.proc.phase.Dropping? {
      PrepareServes(s0, c, s, a);
    } else {
      AdmissionServes(s0, c, s, a);
    }
  }

  /** What is neither the environment nor a crash or a start is an answer or the coordinator's own code. */
  lemma OwnStep(s: State, a: Step)
    requires Next(s, a).Some? && !Environment(a) && !a.Crash? && !s.proc.phase.Down?
    ensures Next(s, a) == if a.AnswerRequest? then AnswerStep(s, a.clockAdvanced) else CoordinatorStep(s, a)
  {
    hide Apply, MutationOf, AnswerStep, CoordinatorStep;
  }

  lemma NextServes(s0: State, c: Command, s: State, a: Step)
    requires StateInv(s) && During(s0, c, s) && Next(s, a).Some? && !a.Crash?
    ensures Follows(s0, c, Next(s, a).value)
  {
    hide StateInv, During, Follows, Next, AnswerStep, CoordinatorStep;
    DuringServes(s0, c, s);
    if Environment(a) {
      EnvironmentServes(s0, c, s, a);
    } else {
      OwnStep(s, a);
      if a.AnswerRequest? {
        AnswerServes(s0, c, s, a.clockAdvanced);
      } else {
        CoordinatorServes(s0, c, s, a);
      }
    }
  }

  // ---------------------------------------------------------------------------
  // Runs

  /** The state after steps that a call is served through: before each the call has not ended. */
  ghost function Serve(s: State, steps: seq<Step>): Option<State>
    decreases |steps|
  {
    if steps == [] then Some(s)
    else if !Serving(s.proc.phase) then None
    else match Next(s, steps[0])
      case None => None
      case Some(t) => Serve(t, steps[1..])
  }

  lemma {:induction false} ServeFollows(s0: State, c: Command, s: State, steps: seq<Step>)
    requires StateInv(s) && Serve(s, steps).Some?
    requires s.proc.phase.Down? || Follows(s0, c, s)
    ensures var t := Serve(s, steps).value; t.proc.phase.Down? || Follows(s0, c, t)
    decreases |steps|
  {
    if steps != [] {
      var a := steps[0];
      ServingGoesOn(s0, c, s);
      NextKeeps(s, a);
      if !a.Crash? {
        NextServes(s0, c, s, a);
      } else {
        CrashEnds(s);
      }
      hide StateInv, Next, Follows, Serving;
      ServeFollows(s0, c, Next(s, a).value, steps[1..]);
    }
  }

  lemma ServingGoesOn(s0: State, c: Command, s: State)
    requires Serving(s.proc.phase) && Follows(s0, c, s)
    ensures During(s0, c, s)
  {
  }

  lemma CrashEnds(s: State)
    ensures Next(s, Crash).Some? && Next(s, Crash).value.proc.phase.Down?
  {
  }

  lemma CallBegins(s0: State, c: Command)
    requires StateInv(s0) && s0.proc.phase.Idle? && !s0.proc.draining && !s0.proc.degraded
    ensures Next(s0, Call(c)).Some? && During(s0, c, Next(s0, Call(c)).value)
  {
    hide DbInv, SlotHolds, FloorHolds, Settled;
  }

  /**
   Whatever happens while an activate call is served, at its end the candidate runs under the next version,
   or the generation from before runs on; runs are admitted unless the process drains, a shutdown left the
   result unknown, or the pointer was ahead already when the call began.
   */
  lemma CallOutcome(s0: State, c: Command, steps: seq<Step>)
    requires Reachable(s0) && s0.proc.phase.Idle? && !s0.proc.draining && !s0.proc.degraded
    requires Next(s0, Call(c)).Some? && Serve(Next(s0, Call(c)).value, steps).Some?
    ensures
      var t := Serve(Next(s0, Call(c)).value, steps).value;
      && (t.proc.phase.Idle? ==> Ended(s0, c, t))
      && (t.proc.phase.Leaked? ==> LeakedAt(s0, t))
      && (Serving(t.proc.phase) ==> During(s0, c, t))
      && (t.proc.phase.Idle? || t.proc.phase.Leaked? || Serving(t.proc.phase) || t.proc.phase.Down?)
  {
    hide StateInv, Reachable, Next, During, LeakedAt, Ended, Follows;
    ReachableHolds(s0);
    CallBegins(s0, c);
    NextKeeps(s0, Call(c));
    DuringFollows(s0, c, Next(s0, Call(c)).value);
    ServeFollows(s0, c, Next(s0, Call(c)).value, steps);
    FollowsCases(s0, c, Serve(Next(s0, Call(c)).value, steps).value);
  }

  lemma DuringFollows(s0: State, c: Command, s: State)
    requires During(s0, c, s)
    ensures Follows(s0, c, s)
  {
  }

  lemma FollowsCases(s0: State, c: Command, t: State)
    requires t.proc.phase.Down? || Follows(s0, c, t)
    ensures t.proc.phase.Idle? ==> Ended(s0, c, t)
    ensures t.proc.phase.Leaked? ==> LeakedAt(s0, t)
    ensures Serving(t.proc.phase) ==> During(s0, c, t)
    ensures t.proc.phase.Idle? || t.proc.phase.Leaked? || Serving(t.proc.phase) || t.proc.phase.Down?
  {
  }

  // ---------------------------------------------------------------------------
  // The ends of the commit phase

  ghost predicate LastBecomes<T>(xs: seq<T>, ys: seq<T>, y: T) {
    xs != [] && ys == xs[..|xs| - 1] + [y]
  }

  lemma ActivateRejections(db: Db, c: Command, clockAdvanced: bool)
    ensures
      var (db', out) := RunActivate(db, c, clockAdvanced);
      out.Rejected? ==> Classify(out) == Definite
  {
    hide Admit, AllUsable, SyncCurrent;
  }

  lemma AnswersCommit(s: State, c: Command, active: Option<Pointer>, clockAdvanced: bool)
    requires s.proc.phase == Committing(c, active)
    ensures
      var (db, out) := RunActivate(s.db, c, clockAdvanced);
      Next(s, AnswerRequest(clockAdvanced)) == Some(s.(db := db, proc := s.proc.(phase := CommitReplied(c, active, Classify(out)))))
  {
    hide Activate, Classify;
  }

  /** Whatever the database answers to the awaited activation is a version it holds, or a definite no that changed nothing. */
  lemma AnswerDecides(s: State, c: Command, active: Option<Pointer>, clockAdvanced: bool)
    requires Reachable(s) && s.proc.phase == Committing(c, active)
    ensures
      var t := Next(s, AnswerRequest(clockAdvanced));
      && t.Some? && t.value.sent == s.sent
      && ((t.value.proc == s.proc.(phase := CommitReplied(c, active, Activated(c.expected + 1))) && Landed(t.value.db, c))
          || (t.value.proc == s.proc.(phase := CommitReplied(c, active, Definite)) && t.value.db == s.db))
  {
    hide StateInv, Reachable, DbInv, Landed, Evolves, History, Next, RunActivate;
    ReachableHolds(s);
    DbHolds(s);
    AnswersCommit(s, c, active, clockAdvanced);
    ActivateRejections(s.db, c, clockAdvanced);
    ActivateRequestKeeps(s.db, s.sent, c, clockAdvanced);
    var (db, out) := RunActivate(s.db, c, clockAdvanced);
    assert out.Done? ==> Classify(out) == Activated(c.expected + 1) && Landed(db, c);
    assert out.Rejected? ==> Classify(out) == Definite && db == s.db;
  }

  lemma DbHolds(s: State)
    requires StateInv(s)
    ensures DbInv(s.db, s.sent)
  {
    hide DbInv;
  }

  /** An activation known to have committed is installed at once, and runs are admitted unless the process drains. */
  lemma CommitInstalls(s: State, c: Command, active: Option<Pointer>, version: nat, leased: bool)
    requires Reachable(s) && s.proc.phase == CommitReplied(c, active, Activated(version))
    ensures
      var t := Next(s, Proceed(leased));
      && t.Some? && t.value.db == s.db && t.value.sent == s.sent
      && var p := t.value.proc;
      && p.phase.Idle? && !p.lock && !p.degraded
      && p.slot.current == Some(Generation(c.setId, version)) && version == c.expected + 1 && Landed(s.db, c)
      && p.slot.accepting == !p.draining && !p.slot.reserved && p.draining == s.proc.draining
      && p.slot.retired == (if s.proc.slot.current.Some? || leased then Some(s.proc.slot.current) else None)
      && LastBecomes(s.proc.generations, p.generations, Installed)
      && LastBecomes(s.proc.bookings, p.bookings, Booking.Committed)
      && p.directories == s.proc.directories
  {
    hide DbInv, SlotHolds, FloorHolds, AcceptingHolds, IsSnapshot, NotLoaded, History, Landed, FreshProcess, RestoreHolds;
    ReachableHolds(s);
  }

  /** A definite no ends the call with the candidate discarded and everything else as it was. */
  lemma DefiniteDiscards(s: State, c: Command, active: Option<Pointer>, leased: bool, removed: bool)
    requires Reachable(s) && s.proc.phase == CommitReplied(c, active, Definite)
    ensures
      var t := Exec(s, [Proceed(leased), RemoveDirectory(removed)]);
      && t.Some? && t.value.db == s.db && t.value.sent == s.sent
      && var p := t.value.proc;
      && p.phase.Idle? && !p.lock
      && p.degraded == s.proc.degraded && p.draining == s.proc.draining
      && p.slot == s.proc.slot.(reserved := false)
      && (c.setId in p.directories <==> !removed)
      && LastBecomes(s.proc.generations, p.generations, Dropped)
      && LastBecomes(s.proc.bookings, p.bookings, Cancelled)
  {
    hide StateInv, Reachable, Next, Exec;
    ReachableHolds(s);
    PendingLedgers(s);
    var u := s.(proc := s.proc.(phase := CommitDropping(c, active)));
    RepliedDefinite(s, c, active, leased);
    CommitDrops(u, c, active, removed);
    Two(s, Proceed(leased), RemoveDirectory(removed));
  }

  /** What is pending is the last of the ledgers, and the candidate's directory is there. */
  lemma PendingLedgers(s: State)
    requires StateInv(s) && s.proc.phase.CommitReplied?
    ensures s.proc.generations != [] && s.proc.bookings != [] && s.proc.phase.c.setId in s.proc.directories
  {
    hide DbInv, SlotHolds, FloorHolds, AcceptingHolds, IsSnapshot, NotLoaded, History, FreshProcess, RestoreHolds;
  }

  lemma RepliedDefinite(s: State, c: Command, active: Option<Pointer>, leased: bool)
    requires s.proc.phase == CommitReplied(c, active, Definite)
    ensures Next(s, Proceed(leased)) == Some(s.(proc := s.proc.(phase := CommitDropping(c, active))))
  {
    assert Next(s, Proceed(leased)) == CoordinatorStep(s, Proceed(leased));
    hide Next;
  }

  lemma CommitDrops(s: State, c: Command, active: Option<Pointer>, removed: bool)
    requires s.proc.phase == CommitDropping(c, active)
    ensures Next(s, RemoveDirectory(removed)) ==
            Some(s.(proc := Release(CancelReservation(DropGeneration(s.proc, c.setId, removed)))))
  {
    assert Next(s, RemoveDirectory(removed)) == CoordinatorStep(s, RemoveDirectory(removed));
    hide Next, Release, CancelReservation, DropGeneration;
  }

  lemma Two(s: State, a: Step, b: Step)
    ensures Exec(s, [a, b]) == (if Next(s, a).Some? then Next(Next(s, a).value, b) else None)
  {
    hide Next;
    assert [a, b][1..] == [b] && [b][1..] == [];
    if Next(s, a).Some? {
      assert Exec(Next(s, a).value, [b]) == Next(Next(s, a).value, b);
    }
  }

  /** So does a request that failed for certain without an answer. */
  lemma AbortedDiscards(s: State, c: Command, active: Option<Pointer>, leased: bool, removed: bool)
    requires Reachable(s) && s.proc.phase == Committing(c, active)
    ensures
      var t := Exec(s, [AbortRequest] + [Proceed(leased), RemoveDirectory(removed)]);
      && t.Some? && t.value.db == s.db && t.value.sent == s.sent
      && var p := t.value.proc;
      && p.phase.Idle? && !p.lock
      && p.degraded == s.proc.degraded && p.draining == s.proc.draining
      && p.slot == s.proc.slot.(reserved := false)
      && (c.setId in p.directories <==> !removed)
      && LastBecomes(s.proc.generations, p.generations, Dropped)
      && LastBecomes(s.proc.bookings, p.bookings, Cancelled)
  {
    hide Exec, Reachable, Next;
    var u := s.(proc := s.proc.(phase := CommitReplied(c, active, Definite)));
    Aborts(s, c, active);
    ReachableNext(s, AbortRequest);
    DefiniteDiscards(u, c, active, leased, removed);
    var rest := [Proceed(leased), RemoveDirectory(removed)];
    ExecFirst(s, AbortRequest, rest);
  }

  lemma Aborts(s: State, c: Command, active: Option<Pointer>)
    requires s.proc.phase == Committing(c, active)
    ensures Next(s, AbortRequest) == Some(s.(proc := s.proc.(phase := CommitReplied(c, active, Definite))))
  {
    assert Next(s, AbortRequest) == CoordinatorStep(s, AbortRequest);
    hide Next;
  }

  lemma ExecFirst(s: State, a: Step, rest: seq<Step>)
    requires Next(s, a).Some?
    ensures Exec(s, [a] + rest) == Exec(Next(s, a).value, rest)
  {
    hide Next;
    assert ([a] + rest)[1..] == rest;
  }

  /** Reaping lets the retired generation go, its directory exactly if it was removed; the current one keeps its own. */
  lemma ReapingRemoves(s: State, removed: bool)
    requires Reachable(s) && s.proc.slot.retired.Some?
    ensures
      var t := Next(s, Reap(removed));
      && t.Some? && t.value.db == s.db && t.value.sent == s.sent
      && var p := t.value.proc;
      && p.slot == s.proc.slot.(retired := None) && p.phase == s.proc.phase
      && (s.proc.slot.retired.value.None? || !removed ==> p.directories == s.proc.directories)
      && (s.proc.slot.retired.value.Some? && removed ==>
            p.directories == s.proc.directories - {s.proc.slot.retired.value.value.setId}
            && p.slot.current.Some? && p.slot.current.value.setId != s.proc.slot.retired.value.value.setId)
  {
    hide StateInv, Reachable, Next;
    ReachableHolds(s);
    if s.proc.slot.retired.value.Some? {
      RetiredDiffers(s);
    }
    ReapIs(s, removed);
  }

  lemma ReapIs(s: State, removed: bool)
    requires s.proc.slot.retired.Some?
    ensures
      var g := s.proc.slot.retired.value;
      Next(s, Reap(removed)) ==
      Some(s.(proc := s.proc.(
          slot := s.proc.slot.(retired := None),
          directories := if removed && g.Some? then s.proc.directories - {g.value.setId} else s.proc.directories)))
  {
    hide Apply, MutationOf, AnswerStep, CoordinatorStep;
  }

  /** The cleanup at shutdown is possible once the process drains with nothing retired, and takes the current directory only. */
  lemma CleanupRemoves(s: State, removed: bool)
    ensures Next(s, CleanupCurrent(removed)).Some? <==> s.proc.draining && s.proc.slot.retired.None?
    ensures Next(s, CleanupCurrent(removed)).Some? ==>
              var t := Next(s, CleanupCurrent(removed)).value;
              && t.db == s.db && t.sent == s.sent && t.proc.slot == s.proc.slot && t.proc.phase == s.proc.phase
              && t.proc.directories == (if removed && s.proc.slot.current.Some?
                                        then s.proc.directories - {s.proc.slot.current.value.setId}
                                        else s.proc.directories)
  {
    hide Apply, MutationOf, AnswerStep, CoordinatorStep;
  }

  lemma RetiredDiffers(s: State)
    requires StateInv(s) && s.proc.slot.retired.Some? && s.proc.slot.retired.value.Some?
    ensures s.proc.slot.current.Some?
    ensures s.proc.slot.current.value.setId != s.proc.slot.retired.value.value.setId
  {
    hide Inv, Bound, SentUpTo, History, PhaseHolds, LedgerHolds, AcceptingHolds, Loads;
    LoadedSetsDiffer(s.db, s.proc.slot.retired.value.value, s.proc.slot.current.value);
  }

  /** Without an answer nothing is known: the process is degraded, admits nobody, and goes on holding the candidate. */
  lemma UnknownDegrades(s: State, c: Command, active: Option<Pointer>, leased: bool)
    requires Reachable(s) && s.proc.phase == Committing(c, active)
    ensures
      var t := Exec(s, [LoseReply, Proceed(leased)]);
      && t.Some? && t.value.db == s.db && t.value.sent == s.sent
      && t.value.proc == s.proc.(phase := ReconcileTop(c, active), degraded := true, slot := s.proc.slot.(accepting := false))
  {
    hide StateInv, Reachable, Next, Exec;
    ReachableHolds(s);
    ReservedWhileBooked(s);
    LosesReply(s, c, active);
    var u := s.(proc := s.proc.(phase := CommitReplied(c, active, Unknown)));
    RepliedUnknown(u, c, active, leased);
    Two(s, LoseReply, Proceed(leased));
  }

  lemma LosesReply(s: State, c: Command, active: Option<Pointer>)
    requires s.proc.phase == Committing(c, active)
    ensures Next(s, LoseReply) == Some(s.(proc := s.proc.(phase := CommitReplied(c, active, Unknown))))
  {
    assert Next(s, LoseReply) == CoordinatorStep(s, LoseReply);
    hide Next;
  }

  lemma RepliedUnknown(s: State, c: Command, active: Option<Pointer>, leased: bool)
    requires s.proc.phase == CommitReplied(c, active, Unknown)
    ensures Next(s, Proceed(leased)) == Some(s.(proc := Degrade(s.proc).(phase := ReconcileTop(c, active))))
  {
    assert Next(s, Proceed(leased)) == CoordinatorStep(s, Proceed(leased));
    hide Next, Degrade;
  }

  lemma SentByCoordinator(s: State, a: Step, c: Command)
    requires CoordinatorStep(s, a).Some? && ActivateRequest(c) !in s.sent && ActivateRequest(c) in CoordinatorStep(s, a).value.sent
    ensures s.proc.phase.Preparing? && s.proc.phase.c == c
    ensures a == FinishPrepare(true, true) && c.setId !in s.proc.directories
  {
    hide Install, Settle, Degrade, AdmitRuns, CancelReservation, DropGeneration, Prepared, Reserve, Consistent, SawActivation;
    hide CanReserve, CanCommit, SnapshotVersion, PreviousOf;
  }

  /** An activation is requested only for a candidate that was prepared and found valid. */
  lemma SentWhenValid(s: State, a: Step, c: Command)
    requires Next(s, a).Some? && ActivateRequest(c) !in s.sent && ActivateRequest(c) in Next(s, a).value.sent
    ensures s.proc.phase.Preparing? && s.proc.phase.c == c
    ensures a == FinishPrepare(true, true) && c.setId !in s.proc.directories
  {
    hide Apply, MutationOf, CoordinatorStep, AnswerStep;
    if a.AnswerRequest? {
      AnswerSends(s, a.clockAdvanced);
    } else if Next(s, a) == CoordinatorStep(s, a) {
      SentByCoordinator(s, a, c);
    }
  }

  lemma AnswerSends(s: State, clockAdvanced: bool)
    requires AnswerStep(s, clockAdvanced).Some?
    ensures AnswerStep(s, clockAdvanced).value.sent == s.sent
  {
    hide Apply, MutationOf, AfterMarking;
  }

  // ---------------------------------------------------------------------------
  // Restore

  /** While restore reads and prepares, nothing runs, nobody is admitted, and no request is sent. */
  ghost predicate Restoring(sent: set<Request>, s: State) {
    && OwnerOf(s.proc.phase) == RestoreCall
    && FreshProcess(s.proc) && !s.proc.stopped
    && s.proc.generations == If(Holding(s.proc.phase), Held)
    && s.proc.bookings == If(Booked(s.proc.phase), Open)
    && s.sent == sent
  }

  /** The set the database activated last, or the one before, runs; without one the process runs unconfigured. */
  ghost predicate Restored(t: State) {
    var p := t.proc;
    && p.restored && p.slot.accepting && !p.degraded && !p.draining && !p.slot.reserved
    && InStep(p.slot, t.db.pointer)
    && (if p.slot.current.Some? then p.generations == [Installed] && p.bookings == [Booking.Committed]
        else p.generations == [] && p.bookings == [])
  }

  ghost predicate NotRestored(t: State) {
    var p := t.proc;
    && !p.restored && !p.slot.accepting && p.degraded && !p.slot.reserved
    && p.slot.current.None?
    && (p.bookings == [] || p.bookings == [Cancelled])
    && (p.generations == [] || p.generations == [Dropped])
  }

  ghost predicate RestoreFollows(sent: set<Request>, t: State) {
    if t.proc.phase.Idle? then !t.proc.lock && t.sent == sent && (RestoredBy(t) || NotRestored(t)) else Restoring(sent, t)
  }

  /** Restored, but for the relation to the database, which every reachable state keeps. */
  ghost predicate RestoredBy(t: State) {
    var p := t.proc;
    && p.restored && p.slot.accepting && !p.degraded && !p.draining && !p.slot.reserved
    && (if p.slot.current.Some? then p.generations == [Installed] && p.bookings == [Booking.Committed]
        else p.generations == [] && p.bookings == [])
  }

  lemma ReadingFollows(sent: set<Request>, s: State, a: Step)
    requires Restoring(sent, s) && s.proc.phase.RestoreReading? && RestoreReadingStep(s, a).Some?
    requires !s.proc.slot.reserved
    ensures RestoreFollows(sent, RestoreReadingStep(s, a).value)
  {
  }

  lemma ReadFollows(sent: set<Request>, s: State, snapshot: Option<Pointer>, a: Step)
    requires Restoring(sent, s) && s.proc.phase == RestoreRead(snapshot) && RestoreReadStep(s, snapshot, a).Some?
    requires !s.proc.slot.reserved
    ensures RestoreFollows(sent, RestoreReadStep(s, snapshot, a).value)
  {
  }

  lemma PreparingFollows(sent: set<Request>, s: State, pointer: Pointer, a: Step)
    requires Restoring(sent, s) && s.proc.phase == RestorePreparing(pointer) && RestorePreparingStep(s, pointer, a).Some?
    ensures RestoreFollows(sent, RestorePreparingStep(s, pointer, a).value)
  {
  }

  lemma RestoreDroppingFollows(sent: set<Request>, s: State, pointer: Pointer, a: Step)
    requires Restoring(sent, s) && s.proc.phase == RestoreDropping(pointer) && RestoreDroppingStep(s, pointer, a).Some?
    ensures RestoreFollows(sent, RestoreDroppingStep(s, pointer, a).value)
  {
  }

  lemma UnreservedUntilBooked(s: State)
    requires StateInv(s) && OwnerOf(s.proc.phase) == RestoreCall && !Booked(s.proc.phase)
    ensures !s.proc.slot.reserved || s.proc.stopped
  {
    hide DbInv, SlotHolds, FloorHolds, AcceptingHolds, PhaseHolds, Settled;
  }

  lemma RestoreStepFollows(sent: set<Request>, s: State, a: Step)
    requires StateInv(s) && Restoring(sent, s) && CoordinatorStep(s, a).Some?
    ensures RestoreFollows(sent, CoordinatorStep(s, a).value)
  {
    hide StateInv, RestoreFollows, FreshProcess, RestoreReadingStep, RestoreReadStep, RestorePreparingStep, RestoreDroppingStep;
    if !Booked(s.proc.phase) {
      UnreservedUntilBooked(s);
    }
    match s.proc.phase
    case RestoreReading => ReadingFollows(sent, s, a);
    case RestoreRead(snapshot) => ReadFollows(sent, s, snapshot, a);
    case RestorePreparing(pointer) => PreparingFollows(sent, s, pointer, a);
    case RestoreDropping(pointer) => RestoreDroppingFollows(sent, s, pointer, a);
  }

  lemma RestoreNextFollows(sent: set<Request>, s: State, a: Step)
    requires StateInv(s) && Restoring(sent, s) && Next(s, a).Some? && !a.Crash?
    ensures RestoreFollows(sent, Next(s, a).value)
  {
    hide StateInv, Next, AnswerStep, CoordinatorStep, Restoring, RestoreFollows;
    if Environment(a) {
      EnvironmentFollows(sent, s, a);
    } else {
      RestoringAlive(sent, s);
      OwnStep(s, a);
      if a.AnswerRequest? {
        NoAnswer(s, a.clockAdvanced);
      } else {
        RestoreStepFollows(sent, s, a);
      }
    }
  }

  lemma RestoringAlive(sent: set<Request>, s: State)
    requires Restoring(sent, s)
    ensures OwnerOf(s.proc.phase) == RestoreCall && !s.proc.phase.Down?
  {
  }

  lemma EnvironmentFollows(sent: set<Request>, s: State, a: Step)
    requires Restoring(sent, s) && Environment(a) && Next(s, a).Some?
    ensures RestoreFollows(sent, Next(s, a).value)
  {
    hide Apply, MutationOf, AnswerStep, CoordinatorStep;
  }

  lemma NoAnswer(s: State, clockAdvanced: bool)
    requires OwnerOf(s.proc.phase) == RestoreCall
    ensures AnswerStep(s, clockAdvanced).None?
  {
    hide Apply, MutationOf;
  }

  /** The state after steps that restore runs through: before each it has not ended. */
  ghost function Restore(s: State, steps: seq<Step>): Option<State>
    decreases |steps|
  {
    if steps == [] then Some(s)
    else if OwnerOf(s.proc.phase) != RestoreCall then None
    else match Next(s, steps[0])
      case None => None
      case Some(t) => Restore(t, steps[1..])
  }

  lemma {:induction false} RestoreRunFollows(sent: set<Request>, s: State, steps: seq<Step>)
    requires Reachable(s) && Restore(s, steps).Some?
    requires s.proc.phase.Down? || RestoreFollows(sent, s)
    ensures var t := Restore(s, steps).value; Reachable(t) && (t.proc.phase.Down? || RestoreFollows(sent, t))
    decreases |steps|
  {
    if steps != [] {
      var a := steps[0];
      hide StateInv, Next, Reachable, Restoring;
      RestoreGoesOn(sent, s);
      ReachableHolds(s);
      ReachableNext(s, a);
      if a.Crash? {
        CrashEnds(s);
      } else {
        RestoreNextFollows(sent, s, a);
      }
      RestoreRunFollows(sent, Next(s, a).value, steps[1..]);
    }
  }

  lemma RestoreGoesOn(sent: set<Request>, s: State)
    requires OwnerOf(s.proc.phase) == RestoreCall && RestoreFollows(sent, s)
    ensures Restoring(sent, s)
  {
  }

  /**
   A restore that ends left the process serving what the database has activated, or degraded, closed and
   empty-handed; in either case it sent nothing and settled whatever it had prepared and reserved.
   */
  lemma RestoreOutcome(s0: State, steps: seq<Step>)
    requires Reachable(s0) && Next(s0, Start).Some? && Restore(Next(s0, Start).value, steps).Some?
    ensures
      var t := Restore(Next(s0, Start).value, steps).value;
      && (t.proc.phase.Idle? ==> !t.proc.lock && t.sent == s0.sent && (Restored(t) || NotRestored(t)))
      && (t.proc.phase.Idle? || t.proc.phase.Down? || Restoring(s0.sent, t))
  {
    hide StateInv, Reachable, Restoring;
    ReachableNext(s0, Start);
    StartRestores(s0);
    var s := Next(s0, Start).value;
    hide Next;
    RestoreRunFollows(s0.sent, s, steps);
    var t := Restore(s, steps).value;
    hide Restore;
    if t.proc.phase.Idle? && RestoredBy(t) {
      Lockstep(t);
    }
  }

  lemma StartRestores(s0: State)
    requires Next(s0, Start).Some?
    ensures RestoreFollows(s0.sent, Next(s0, Start).value)
  {
  }
}
