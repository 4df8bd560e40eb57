/**
 The activation protocol as a state machine: the registry database, the network, and one agent process
 whose coordinator swaps the running skill generation.  One step is one stretch of code between two
 awaits, one database transaction, or one thing the environment may do: another transaction, a late or
 repeated execution of any request ever sent, a lost reply, a cancelled call, a crash, a restart.
 */
module Activation {
  import opened Common
  import opened Registry

  /** An activation command; its assertion nonce is its request id. */
  datatype Command = Command(setId: Uuid, expected: nat, actor: Uuid, requestId: Uuid)

  function IdentOf(c: Command): Ident {
    Ident(c.actor, c.requestId, c.requestId, Hash([c.expected, c.requestId, c.setId]))
  }

  datatype Request = ActivateRequest(c: Command) | FailRequest(c: Command, code: string)

  function MutationOf(r: Request, clockAdvanced: bool): Mutation {
    match r
    case ActivateRequest(c) => ActivateCall(c.setId, c.expected, IdentOf(c), clockAdvanced)
    case FailRequest(c, code) => FailCall(c.setId, c.expected, IdentOf(c), code)
  }

  /** What the repository reports for a mutation: a version, a definite failure, or no known result. */
  datatype Reply = Activated(version: nat) | Definite | Unknown

  function Classify(out: Outcome): Reply {
    match out
    case Done(_, version) => Activated(version)
    case Rejected(StaleState) => Definite
    case Rejected(IdempotencyClash) => Definite
    case Rejected(InvalidRequest) => Definite
    case Rejected(InvalidContent) => Definite
    case Rejected(_) => Unknown
  }

  datatype Generation = Generation(setId: Uuid, version: nat)

  /** The generation slot; None as a generation is the unconfigured one, which has no directory. */
  datatype Slot = Slot(
    current: Option<Generation>,
    retired: Option<Option<Generation>>,
    reserved: bool,
    accepting: bool)

  /** What became of a prepared generation. */
  datatype Fate = Held | Installed | Dropped

  /** What became of a reservation. */
  datatype Booking = Open | Committed | Cancelled

  /** Where the process stands.  Every phase but Down and Idle holds the activation lock. */
  datatype Phase =
    | Down
    | Idle
    | RestoreReading
    | RestoreRead(snapshot: Option<Pointer>)
    | RestorePreparing(pointer: Pointer)
    | RestoreDropping(pointer: Pointer)
    | Loading(c: Command)
    | Loaded(c: Command, snapshot: Option<Pointer>)
    | CandidateReading(c: Command, active: Option<Pointer>)
    | CandidateRead(c: Command, active: Option<Pointer>)
    | Preparing(c: Command, active: Option<Pointer>)
    | Marking(c: Command, active: Option<Pointer>, holding: bool)
    | Dropping(c: Command, active: Option<Pointer>)
    | Abandoned(c: Command, active: Option<Pointer>)
    | AbandonedDropping(c: Command, active: Option<Pointer>)
    | Committing(c: Command, active: Option<Pointer>)
    | CommitReplied(c: Command, active: Option<Pointer>, reply: Reply)
    | CommitDropping(c: Command, active: Option<Pointer>)
    | ReconcileTop(c: Command, active: Option<Pointer>)
    | Polling(c: Command, active: Option<Pointer>)
    | Polled(c: Command, active: Option<Pointer>, seen: Option<Pointer>, target: Option<SetState>)
    | PollMarking(c: Command, active: Option<Pointer>)
    | Resuming(c: Command, active: Option<Pointer>)
    | Leaked

  /** The tasks that may own the activation lock. */
  datatype Owner = NoOwner | RestoreCall | ActivateCallTask | PrepareCleanup | CommitTask | ReconcileTask

  function OwnerOf(p: Phase): Owner {
    match p
    case Down | Idle | Leaked => NoOwner
    case RestoreReading | RestoreRead(_) | RestorePreparing(_) | RestoreDropping(_) => RestoreCall
    case Loading(_) | Loaded(_, _) | CandidateReading(_, _) | CandidateRead(_, _) => ActivateCallTask
    case Preparing(_, _) | Marking(_, _, _) | Dropping(_, _) => ActivateCallTask
    case Abandoned(_, _) | AbandonedDropping(_, _) => PrepareCleanup
    case Committing(_, _) | CommitReplied(_, _, _) | CommitDropping(_, _) => CommitTask
    case ReconcileTop(_, _) | Polling(_, _) | Polled(_, _, _, _) | PollMarking(_, _) | Resuming(_, _) => ReconcileTask
  }

  /**
   One process.  `restored` records that restore installed what it read; `stopped` that shutdown ended
   a reconciliation; `cleaned` holds the sets whose directories went when shutdown cleaned the current
   generation; the last two fields keep every generation prepared and every reservation made.
   */
  datatype Process = Process(
    phase: Phase,
    lock: bool,
    degraded: bool,
    draining: bool,
    restored: bool,
    stopped: bool,
    slot: Slot,
    directories: set<Uuid>,
    cleaned: set<Uuid>,
    generations: seq<Fate>,
    bookings: seq<Booking>)

  datatype State = State(db: Db, sent: set<Request>, proc: Process)

  const EMPTY_SLOT := Slot(None, None, false, false)
  const NO_PROCESS := Process(Down, false, false, false, false, false, EMPTY_SLOT, {}, {}, [], [])
  const INITIAL := State(EMPTY, {}, NO_PROCESS)

  datatype Step =
    // environment
    | Manage(m: Mutation)
    | Deliver(r: Request, clockAdvanced: bool)
    | Crash
    | Reap(removed: bool)
    // the process's life
    | Start
    | Shutdown
    | CleanupCurrent(removed: bool)
    | Call(c: Command)
    | Cancel(removed: bool)
    // awaited results
    | ReadActive
    | ReadCandidate
    | Poll
    | FailRead
    | FinishPrepare(ok: bool, valid: bool)
    | AnswerRequest(clockAdvanced: bool)
    | AbortRequest
    | LoseReply
    | RemoveDirectory(removed: bool)
    // code between two awaits
    | Proceed(leased: bool)

  // ---------------------------------------------------------------------------
  // Pieces of the coordinator

  function Release(p: Process): Process {
    p.(lock := false, phase := Idle)
  }

  function Degrade(p: Process): Process {
    p.(degraded := true, slot := p.slot.(accepting := false))
  }

  function Settle<T>(xs: seq<T>, x: T): seq<T> {
    if xs == [] then xs else xs[|xs| - 1 := x]
  }

  function Reserve(p: Process): Process {
    p.(slot := p.slot.(reserved := true), bookings := p.bookings + [Open])
  }

  predicate CanReserve(slot: Slot) {
    !slot.reserved && slot.retired.None?
  }

  predicate CanCommit(slot: Slot) {
    slot.reserved && slot.retired.None?
  }

  function CancelReservation(p: Process): Process {
    p.(slot := p.slot.(reserved := false), bookings := Settle(p.bookings, Cancelled))
  }

  function Prepared(p: Process, setId: Uuid): Process {
    p.(directories := p.directories + {setId}, generations := p.generations + [Held])
  }

  function DropGeneration(p: Process, setId: Uuid, removed: bool): Process {
    p.(directories := if removed then p.directories - {setId} else p.directories,
       generations := Settle(p.generations, Dropped))
  }

  /** reservation.commit: the old generation retires if it has a directory or a live lease. */
  function Install(p: Process, g: Generation, leased: bool): Process {
    p.(slot := Slot(Some(g), if p.slot.current.Some? || leased then Some(p.slot.current) else None, false, p.slot.accepting),
       generations := Settle(p.generations, Installed),
       bookings := Settle(p.bookings, Committed))
  }

  /** cleanup_current: the directory of the current generation goes, the generation stays in place. */
  function CleanCurrent(p: Process): Process {
    if p.slot.current.None? then p
    else
      var setId := p.slot.current.value.setId;
      p.(directories := p.directories - {setId}, cleaned := p.cleaned + {setId})
  }

  /** set_accepting_runs(not draining) with a status that is no longer degraded. */
  function AdmitRuns(p: Process): Process {
    p.(degraded := false, slot := p.slot.(accepting := !p.draining))
  }

  function LoadedVersion(slot: Slot): nat {
    if slot.current.Some? then slot.current.value.version else 0
  }

  function SnapshotVersion(a: Option<Pointer>): nat {
    if a.Some? then a.value.version else 0
  }

  /** _is_consistent. */
  predicate Consistent(slot: Slot, active: Option<Pointer>) {
    match active
    case None => slot.current.None?
    case Some(p) => slot.current == Some(Generation(p.active, p.version))
  }

  // ---------------------------------------------------------------------------
  // restore

  function RestoreReadingStep(s: State, a: Step): Option<State> {
    if a.ReadActive? then Some(s.(proc := s.proc.(phase := RestoreRead(s.db.pointer))))
    else if a.FailRead? then Some(s.(proc := Release(Degrade(s.proc))))
    else None
  }

  function RestoreReadStep(s: State, snapshot: Option<Pointer>, a: Step): Option<State> {
    var p := s.proc;
    if !a.Proceed? then None
    else if snapshot.None? then Some(s.(proc := Release(p.(restored := true, slot := p.slot.(accepting := true)))))
    else if CanReserve(p.slot) then Some(s.(proc := Reserve(p).(phase := RestorePreparing(snapshot.value))))
    else Some(s.(proc := Release(Degrade(p))))
  }

  function RestorePreparingStep(s: State, pointer: Pointer, a: Step): Option<State> {
    var p := s.proc;
    if !a.FinishPrepare? then None
    else if !a.ok || pointer.active in p.directories then Some(s.(proc := Release(Degrade(CancelReservation(p)))))
    else
      var held := Prepared(p, pointer.active);
      if a.valid && CanCommit(p.slot) then
        var installed := Install(held, Generation(pointer.active, pointer.version), false);
        Some(s.(proc := Release(installed.(restored := true, slot := installed.slot.(accepting := true)))))
      else Some(s.(proc := held.(phase := RestoreDropping(pointer))))
  }

  function RestoreDroppingStep(s: State, pointer: Pointer, a: Step): Option<State> {
    if a.RemoveDirectory?
    then Some(s.(proc := Release(Degrade(CancelReservation(DropGeneration(s.proc, pointer.active, a.removed))))))
    else None
  }

  // ---------------------------------------------------------------------------
  // activate

  function IdleStep(s: State, a: Step): Option<State> {
    if !a.Call? then None
    else if s.proc.draining || s.proc.degraded then Some(s)
    else Some(s.(proc := s.proc.(lock := true, phase := Loading(a.c))))
  }

  function LoadingStep(s: State, c: Command, a: Step): Option<State> {
    if a.ReadActive? then Some(s.(proc := s.proc.(phase := Loaded(c, s.db.pointer))))
    else if a.FailRead? || a.Cancel? then Some(s.(proc := Release(s.proc)))
    else None
  }

  function LoadedStep(s: State, c: Command, snapshot: Option<Pointer>, a: Step): Option<State> {
    if !a.Proceed? then None
    else if !Consistent(s.proc.slot, snapshot) then Some(s.(proc := Release(Degrade(s.proc))))
    else if SnapshotVersion(snapshot) != c.expected then Some(s.(proc := Release(s.proc)))
    else Some(s.(proc := s.proc.(phase := CandidateReading(c, snapshot))))
  }

  function CandidateReadingStep(s: State, c: Command, active: Option<Pointer>, a: Step): Option<State> {
    if a.ReadCandidate? && c.setId in s.db.sets && s.db.sets[c.setId].state == Candidate
    then Some(s.(proc := s.proc.(phase := CandidateRead(c, active))))
    else if a.ReadCandidate? || a.FailRead? || a.Cancel? then Some(s.(proc := Release(s.proc)))
    else None
  }

  function CandidateReadStep(s: State, c: Command, active: Option<Pointer>, a: Step): Option<State> {
    if !a.Proceed? then None
    else if CanReserve(s.proc.slot) then Some(s.(proc := Reserve(s.proc).(phase := Preparing(c, active))))
    else Some(s.(proc := Release(s.proc)))
  }

  function PreparingStep(s: State, c: Command, active: Option<Pointer>, a: Step): Option<State> {
    var p := s.proc;
    if a.Cancel? then Some(s.(proc := p.(phase := Abandoned(c, active))))
    else if !a.FinishPrepare? then None
    else if !a.ok || c.setId in p.directories then
      Some(s.(sent := s.sent + {FailRequest(c, "skill_validation_failed")}, proc := p.(phase := Marking(c, active, false))))
    else if !a.valid then
      Some(s.(sent := s.sent + {FailRequest(c, "skill_validation_failed")},
              proc := Prepared(p, c.setId).(phase := Marking(c, active, true))))
    else
      Some(s.(sent := s.sent + {ActivateRequest(c)}, proc := Prepared(p, c.setId).(phase := Committing(c, active))))
  }

  /** Once mark_failed returned or raised, the finally clause discards what was prepared. */
  function AfterMarking(p: Process, c: Command, active: Option<Pointer>, holding: bool): Process {
    if holding then p.(phase := Dropping(c, active)) else Release(CancelReservation(p))
  }

  function MarkingStep(s: State, c: Command, active: Option<Pointer>, holding: bool, a: Step): Option<State> {
    if a.LoseReply? || a.Cancel? then Some(s.(proc := AfterMarking(s.proc, c, active, holding))) else None
  }

  /** A cancellation that arrives here skips the rest of the finally clause. */
  function DroppingStep(s: State, c: Command, a: Step): Option<State> {
    if a.Cancel? then Some(s.(proc := DropGeneration(s.proc, c.setId, a.removed).(phase := Leaked)))
    else DiscardStep(s, c, a)
  }

  /** discard_generation, then reservation.cancel and the release of the lock. */
  function DiscardStep(s: State, c: Command, a: Step): Option<State> {
    if a.RemoveDirectory? then Some(s.(proc := Release(CancelReservation(DropGeneration(s.proc, c.setId, a.removed)))))
    else None
  }

  // ---------------------------------------------------------------------------
  // _finish_abandoned_prepare

  function AbandonedStep(s: State, c: Command, active: Option<Pointer>, a: Step): Option<State> {
    var p := s.proc;
    if !a.FinishPrepare? then None
    else if !a.ok || c.setId in p.directories then Some(s.(proc := Release(CancelReservation(p))))
    else Some(s.(proc := Prepared(p, c.setId).(phase := AbandonedDropping(c, active))))
  }

  // ---------------------------------------------------------------------------
  // _commit_phase

  function CommittingStep(s: State, c: Command, active: Option<Pointer>, a: Step): Option<State> {
    if a.LoseReply? then Some(s.(proc := s.proc.(phase := CommitReplied(c, active, Unknown))))
    else if a.AbortRequest? then Some(s.(proc := s.proc.(phase := CommitReplied(c, active, Definite))))
    else None
  }

  function CommitRepliedStep(s: State, c: Command, active: Option<Pointer>, reply: Reply, a: Step): Option<State> {
    var p := s.proc;
    if !a.Proceed? then None
    else if reply.Definite? then Some(s.(proc := p.(phase := CommitDropping(c, active))))
    else if reply.Unknown? || reply.version != c.expected + 1 || !CanCommit(p.slot)
    then Some(s.(proc := Degrade(p).(phase := ReconcileTop(c, active))))
    else Some(s.(proc := Release(AdmitRuns(Install(p, Generation(c.setId, reply.version), a.leased)))))
  }

  // ---------------------------------------------------------------------------
  // _reconcile_unknown

  function ReconcileTopStep(s: State, c: Command, active: Option<Pointer>, a: Step): Option<State> {
    if !a.Proceed? then None
    else if s.proc.draining then Some(s.(proc := Release(s.proc).(stopped := true)))
    else Some(s.(proc := s.proc.(phase := Polling(c, active))))
  }

  function PollingStep(s: State, c: Command, active: Option<Pointer>, a: Step): Option<State> {
    if a.Poll? then
      var target := if c.setId in s.db.sets then Some(s.db.sets[c.setId].state) else None;
      Some(s.(proc := s.proc.(phase := Polled(c, active, s.db.pointer, target))))
    else if a.FailRead? then Some(s.(proc := s.proc.(phase := ReconcileTop(c, active))))
    else None
  }

  predicate SawActivation(c: Command, active: Option<Pointer>, seen: Option<Pointer>, target: Option<SetState>) {
    target == Some(Active) && seen == Some(Pointer(c.setId, PreviousOf(active), c.expected + 1))
  }

  /** What a poll of the database leads to: install, fence, resume, or poll again. */
  function PolledStep(s: State, c: Command, active: Option<Pointer>, seen: Option<Pointer>, target: Option<SetState>, a: Step): Option<State> {
    var p := s.proc;
    if !a.Proceed? then None
    else if SawActivation(c, active, seen, target) then
      if CanCommit(p.slot)
      then Some(s.(proc := Release(AdmitRuns(Install(p, Generation(c.setId, c.expected + 1), a.leased)))))
      else Some(s.(proc := Release(p)))
    else if target == Some(Candidate) && seen == active then
      Some(s.(sent := s.sent + {FailRequest(c, "artifact_invalid")}, proc := p.(phase := PollMarking(c, active))))
    else if (target == Some(Failed) || target == Some(Discarded)) && seen == active then
      Some(s.(proc := p.(phase := Resuming(c, active))))
    else Some(s.(proc := p.(phase := ReconcileTop(c, active))))
  }

  function PollMarkingStep(s: State, c: Command, active: Option<Pointer>, a: Step): Option<State> {
    if a.LoseReply? || a.AbortRequest? then Some(s.(proc := s.proc.(phase := ReconcileTop(c, active)))) else None
  }

  function ResumingStep(s: State, c: Command, a: Step): Option<State> {
    if a.RemoveDirectory?
    then Some(s.(proc := Release(AdmitRuns(CancelReservation(DropGeneration(s.proc, c.setId, a.removed))))))
    else None
  }

  function PreviousOf(active: Option<Pointer>): Option<Uuid> {
    if active.Some? then Some(active.value.active) else None
  }

  /** The awaited request runs in the database and its answer arrives. */
  ghost function AnswerStep(s: State, clockAdvanced: bool): Option<State> {
    var p := s.proc;
    match p.phase
    case Committing(c, active) =>
      var (db, out) := Apply(s.db, MutationOf(ActivateRequest(c), clockAdvanced));
      Some(s.(db := db, proc := p.(phase := CommitReplied(c, active, Classify(out)))))
    case PollMarking(c, active) =>
      var (db, out) := Apply(s.db, MutationOf(FailRequest(c, "artifact_invalid"), clockAdvanced));
      Some(s.(db := db, proc := p.(phase := if out.Done? then Resuming(c, active) else ReconcileTop(c, active))))
    case Marking(c, active, holding) =>
      var db := Apply(s.db, MutationOf(FailRequest(c, "skill_validation_failed"), clockAdvanced)).0;
      Some(s.(db := db, proc := AfterMarking(p, c, active, holding)))
    case _ => None
  }

  ghost function Next(s: State, a: Step): Option<State> {
    match a
    case Manage(m) => if m.ActivateCall? || m.FailCall? then None else Some(s.(db := Apply(s.db, m).0))
    case Deliver(r, clockAdvanced) =>
      if r in s.sent then Some(s.(db := Apply(s.db, MutationOf(r, clockAdvanced)).0)) else None
    case Crash => Some(s.(proc := NO_PROCESS))
    case Reap(removed) =>
      (match s.proc.slot.retired
       case None => None
       case Some(g) =>
         Some(s.(proc := s.proc.(
             slot := s.proc.slot.(retired := None),
             directories := if removed && g.Some? then s.proc.directories - {g.value.setId} else s.proc.directories))))
    case Start => if s.proc.phase.Down? then Some(s.(proc := NO_PROCESS.(phase := RestoreReading, lock := true))) else None
    case Shutdown =>
      if s.proc.phase.Down? || OwnerOf(s.proc.phase) == RestoreCall then None
      else Some(s.(proc := s.proc.(draining := true, slot := s.proc.slot.(accepting := false))))
    case CleanupCurrent(removed) =>
      if !s.proc.draining || s.proc.slot.retired.Some? then None
      else Some(s.(proc := if removed then CleanCurrent(s.proc) else s.proc))
    case AnswerRequest(clockAdvanced) => AnswerStep(s, clockAdvanced)
    case _ => CoordinatorStep(s, a)
  }

  /** The code of the coordinator between two awaits. */
  function CoordinatorStep(s: State, a: Step): Option<State> {
    match s.proc.phase
    case Down => None
    case Idle => IdleStep(s, a)
    case RestoreReading => RestoreReadingStep(s, a)
    case RestoreRead(snapshot) => RestoreReadStep(s, snapshot, a)
    case RestorePreparing(pointer) => RestorePreparingStep(s, pointer, a)
    case RestoreDropping(pointer) => RestoreDroppingStep(s, pointer, a)
    case Loading(c) => LoadingStep(s, c, a)
    case Loaded(c, snapshot) => LoadedStep(s, c, snapshot, a)
    case CandidateReading(c, active) => CandidateReadingStep(s, c, active, a)
    case CandidateRead(c, active) => CandidateReadStep(s, c, active, a)
    case Preparing(c, active) => PreparingStep(s, c, active, a)
    case Marking(c, active, holding) => MarkingStep(s, c, active, holding, a)
    case Dropping(c, _) => DroppingStep(s, c, a)
    case Abandoned(c, active) => AbandonedStep(s, c, active, a)
    case AbandonedDropping(c, _) => DiscardStep(s, c, a)
    case Committing(c, active) => CommittingStep(s, c, active, a)
    case CommitReplied(c, active, reply) => CommitRepliedStep(s, c, active, reply, a)
    case CommitDropping(c, _) => DiscardStep(s, c, a)
    case ReconcileTop(c, active) => ReconcileTopStep(s, c, active, a)
    case Polling(c, active) => PollingStep(s, c, active, a)
    case Polled(c, active, seen, target) => PolledStep(s, c, active, seen, target, a)
    case PollMarking(c, active) => PollMarkingStep(s, c, active, a)
    case Resuming(c, _) => ResumingStep(s, c, a)
    case Leaked => None
  }

  /** A run: the state after the actions, if each was possible in turn. */
  ghost function Exec(s: State, actions: seq<Step>): Option<State>
    decreases |actions|
  {
    if actions == [] then Some(s)
    else match Next(s, actions[0])
      case None => None
      case Some(t) => Exec(t, actions[1..])
  }
}
