/**
 What every step of the activation protocol keeps.  The database enters only through its activation
 history: the first L sets of the history are what the process has loaded, and no request in flight
 expects a version above L, so at most one activation can ever run ahead of the process.
 */
module ActivationInvariants {
  import opened Common
  import opened Registry
  import opened RegistryInvariants
  import opened Activation

  // ---------------------------------------------------------------------------
  // Database and network

  /** Activations come only from coordinators, so the fingerprint of an event fixes its version. */
  ghost predicate Bound(events: seq<Event>) {
    forall e :: e in events && e.action == ActivateSet ==>
      e.resultVersion >= 1
      && e.ident.fingerprint == Hash([e.resultVersion - 1, e.ident.requestId, e.resultSet])
  }

  ghost predicate SentUpTo(sent: set<Request>, bound: nat) {
    forall r :: r in sent && r.ActivateRequest? ==> r.c.expected <= bound
  }

  ghost predicate DbInv(db: Db, sent: set<Request>) {
    Inv(db) && Bound(db.events) && SentUpTo(sent, |History(db)|)
  }

  // ---------------------------------------------------------------------------
  // The process

  /** A generation this process installed is the version it carries of the activation history. */
  ghost predicate Loads(g: Generation, h: seq<Uuid>) {
    1 <= g.version <= |h| && h[g.version - 1] == g.setId
  }

  ghost predicate IsSnapshot(a: Option<Pointer>, h: seq<Uuid>) {
    SnapshotVersion(a) <= |h| && a == PointerOf(h[..SnapshotVersion(a)])
  }

  /** The version below which the process can no longer be overtaken by a request in flight. */
  ghost function Floor(p: Process): Option<nat> {
    match p.phase
    case RestoreRead(snapshot) => Some(SnapshotVersion(snapshot))
    case RestorePreparing(pointer) => Some(pointer.version)
    case RestoreDropping(pointer) => Some(pointer.version)
    case _ => if p.restored then Some(LoadedVersion(p.slot)) else None
  }

  ghost predicate FloorHolds(floor: Option<nat>, h: seq<Uuid>, sent: set<Request>) {
    floor.Some? ==> floor.value <= |h| <= floor.value + 1 && SentUpTo(sent, floor.value)
  }

  ghost predicate SlotHolds(slot: Slot, directories: set<Uuid>, h: seq<Uuid>) {
    && (slot.current.Some? ==> Loads(slot.current.value, h) && slot.current.value.setId in directories)
    && (slot.retired.Some? && slot.retired.value.Some? ==>
          slot.current.Some?
          && Loads(slot.retired.value.value, h)
          && slot.retired.value.value.version < slot.current.value.version
          && slot.retired.value.value.setId in directories)
  }

  predicate ResultUnknown(phase: Phase) {
    || phase.ReconcileTop? || phase.Polling? || phase.Polled? || phase.PollMarking? || phase.Resuming?
  }

  ghost predicate AcceptingHolds(p: Process) {
    && (p.slot.accepting <==> p.restored && !p.draining && !p.degraded)
    && (p.slot.current.Some? ==> p.restored)
    && (ResultUnknown(p.phase) ==> p.degraded)
    && (p.stopped ==> p.phase.Idle? && p.draining)
    && (p.cleaned != {} ==> p.draining)
  }

  /** Phases in which a reservation is open. */
  predicate Booked(phase: Phase) {
    || phase.RestorePreparing? || phase.RestoreDropping? || phase.Preparing? || phase.Marking? || phase.Dropping?
    || phase.Abandoned? || phase.AbandonedDropping? || phase.Committing? || phase.CommitReplied?
    || phase.CommitDropping? || ResultUnknown(phase)
  }

  /** Phases that hold a prepared generation. */
  predicate Holding(phase: Phase) {
    || phase.RestoreDropping? || (phase.Marking? && phase.holding) || phase.Dropping? || phase.AbandonedDropping?
    || phase.Committing? || phase.CommitReplied? || phase.CommitDropping? || ResultUnknown(phase)
  }

  ghost predicate Settled<T>(xs: seq<T>, pending: T, last: bool) {
    && (forall i :: 0 <= i < |xs| - 1 ==> xs[i] != pending)
    && (|xs| > 0 ==> (xs[|xs| - 1] == pending <==> last))
    && (last ==> |xs| > 0)
  }

  ghost predicate LedgerHolds(p: Process) {
    && Settled(p.generations, Held, Holding(p.phase) || p.stopped)
    && Settled(p.bookings, Open, Booked(p.phase) || p.stopped || p.phase.Leaked?)
    && (p.slot.reserved <==> Booked(p.phase) || p.stopped || p.phase.Leaked?)
    && (p.slot.reserved ==> p.slot.retired.None?)
    && (p.lock <==> !p.phase.Down? && !p.phase.Idle?)
  }

  /** A candidate read as such after the loaded set was activated is none of the loaded sets. */
  ghost predicate NotLoaded(loaded: nat, setId: Uuid, db: Db) {
    && loaded <= |History(db)|
    && setId !in History(db)[..loaded]
    && setId in db.sets
  }

  ghost predicate Fenced(db: Db, setId: Uuid) {
    setId in db.sets && (db.sets[setId].state == Failed || db.sets[setId].state == Discarded)
  }

  /** The activation of c is version expected + 1 of the history. */
  ghost predicate Landed(db: Db, c: Command) {
    |History(db)| > c.expected && History(db)[c.expected] == c.setId
  }

  /** The command and the pointer every phase after the consistency check works with. */
  ghost predicate CommandHolds(p: Process, db: Db, c: Command, active: Option<Pointer>) {
    && p.restored
    && c.expected == LoadedVersion(p.slot) == SnapshotVersion(active)
    && IsSnapshot(active, History(db))
  }

  ghost predicate CandidateHolds(p: Process, db: Db, c: Command, active: Option<Pointer>) {
    && CommandHolds(p, db, c, active)
    && NotLoaded(LoadedVersion(p.slot), c.setId, db)
    && (Holding(p.phase) ==> c.setId in p.directories)
  }

  ghost predicate SeenHolds(db: Db, c: Command, seen: Option<Pointer>, target: Option<SetState>) {
    && IsSnapshot(seen, History(db))
    && (target.Some? ==> c.setId in db.sets && StateMayBecome(target.value, db.sets[c.setId].state))
  }

  ghost predicate PhaseHolds(p: Process, db: Db) {
    match p.phase
    case Down => !p.restored && !p.draining && p.slot == EMPTY_SLOT
    case Idle => p.restored || p.degraded
    case RestoreReading => FreshProcess(p)
    case RestoreRead(snapshot) => FreshProcess(p) && IsSnapshot(snapshot, History(db))
    case RestorePreparing(pointer) => RestoreHolds(p, db, pointer)
    case RestoreDropping(pointer) => RestoreHolds(p, db, pointer) && pointer.active in p.directories
    case Loading(_) => p.restored
    case Leaked => p.restored
    case Loaded(_, snapshot) =>
      p.restored && IsSnapshot(snapshot, History(db)) && SnapshotVersion(snapshot) >= LoadedVersion(p.slot)
    case CandidateReading(c, active) => CommandHolds(p, db, c, active)
    case _ => CandidateHolds(p, db, p.phase.c, p.phase.active) && ResultHolds(p.phase, db)
  }

  /** What the phases after a database answer know beyond the candidate. */
  ghost predicate ResultHolds(phase: Phase, db: Db) {
    match phase
    case CommitReplied(c, _, reply) => reply.Activated? ==> reply.version == c.expected + 1 && Landed(db, c)
    case Polled(c, _, seen, target) => SeenHolds(db, c, seen, target)
    case Resuming(c, _) => Fenced(db, c.setId)
    case _ => true
  }

  ghost predicate FreshProcess(p: Process) {
    !p.restored && !p.degraded && !p.draining && p.slot.current.None? && p.slot.retired.None? && !p.slot.accepting
  }

  ghost predicate RestoreHolds(p: Process, db: Db, pointer: Pointer) {
    && FreshProcess(p)
    && IsSnapshot(Some(pointer), History(db))
    && pointer.version >= 1
  }

  ghost predicate ProcessHolds(p: Process, db: Db, sent: set<Request>) {
    && FloorHolds(Floor(p), History(db), sent)
    && SlotHolds(p.slot, p.directories + p.cleaned, History(db))
    && AcceptingHolds(p)
    && LedgerHolds(p)
    && PhaseHolds(p, db)
  }

  /** Compared with true, the conjunction stays one fact wherever it is ensured. */
  ghost predicate StateInv(s: State) {
    (DbInv(s.db, s.sent) && ProcessHolds(s.proc, s.db, s.sent)) == true
  }

  lemma InitialInv()
    ensures StateInv(INITIAL)
  {
  }

  // ---------------------------------------------------------------------------
  // Transactions under the process's feet

  /** A database change that leaves the history alone, or appends one set still within reach. */
  ghost predicate DbMoves(db: Db, db': Db, floor: Option<nat>) {
    && Evolves(db, db')
    && (floor.Some? ==> |History(db')| <= floor.value + 1)
  }

  lemma SnapshotStays(a: Option<Pointer>, h: seq<Uuid>, h': seq<Uuid>)
    requires IsSnapshot(a, h) && IsPrefix(h, h')
    ensures IsSnapshot(a, h')
  {
    assert h'[..SnapshotVersion(a)] == h[..SnapshotVersion(a)];
  }

  lemma CandidateStays(p: Process, db: Db, db': Db, c: Command, active: Option<Pointer>)
    requires CandidateHolds(p, db, c, active) && Evolves(db, db')
    ensures CandidateHolds(p, db', c, active)
  {
    SnapshotStays(active, History(db), History(db'));
    var n := LoadedVersion(p.slot);
    assert History(db')[..n] == History(db)[..n];
  }

  predicate HasCandidate(phase: Phase) {
    OwnerOf(phase) != NoOwner && OwnerOf(phase) != RestoreCall
    && !phase.Loading? && !phase.Loaded? && !phase.CandidateReading?
  }

  lemma CandidatePhaseStays(p: Process, db: Db, db': Db)
    requires HasCandidate(p.phase) && PhaseHolds(p, db) && Evolves(db, db')
    ensures PhaseHolds(p, db')
  {
    CandidateStays(p, db, db', p.phase.c, p.phase.active);
    if p.phase.Polled? {
      SnapshotStays(p.phase.seen, History(db), History(db'));
    }
    hide CandidateHolds;
  }

  lemma PhaseStays(p: Process, db: Db, db': Db)
    requires PhaseHolds(p, db) && Evolves(db, db')
    ensures PhaseHolds(p, db')
  {
    if HasCandidate(p.phase) {
      CandidatePhaseStays(p, db, db');
    } else {
      hide CandidateHolds, ResultHolds;
      match p.phase
      case RestoreRead(snapshot) => SnapshotStays(snapshot, History(db), History(db'));
      case RestorePreparing(pointer) => SnapshotStays(Some(pointer), History(db), History(db'));
      case RestoreDropping(pointer) => SnapshotStays(Some(pointer), History(db), History(db'));
      case Loaded(c, snapshot) => SnapshotStays(snapshot, History(db), History(db'));
      case CandidateReading(c, active) => SnapshotStays(active, History(db), History(db'));
      case Down | Idle | RestoreReading | Loading(_) | Leaked =>
    }
  }

  lemma ProcessStays(p: Process, db: Db, db': Db, sent: set<Request>)
    requires ProcessHolds(p, db, sent) && DbMoves(db, db', Floor(p))
    ensures ProcessHolds(p, db', sent)
  {
    PhaseStays(p, db, db');
    hide PhaseHolds, LedgerHolds, AcceptingHolds;
    assert SlotHolds(p.slot, p.directories + p.cleaned, History(db'));
  }

  // ---------------------------------------------------------------------------
  // Requests reaching the database

  lemma {:induction false} ActivationsConcat(xs: seq<Event>, ys: seq<Event>)
    ensures Activations(xs + ys) == Activations(xs) + Activations(ys)
  {
    if ys == [] {
      assert xs + ys == xs;
    } else {
      var n := |ys| - 1;
      assert (xs + ys)[..|xs| + n] == xs + ys[..n];
      ActivationsConcat(xs, ys[..n]);
    }
  }

  lemma BoundStays(db: Db, db': Db)
    requires Bound(db.events) && IsPrefix(db.events, db'.events) && |History(db')| == |History(db)|
    ensures Bound(db'.events)
  {
    var tail := db'.events[|db.events|..];
    assert db'.events == db.events + tail;
    ActivationsConcat(db.events, tail);
    ActivationsHold(db.events);
    ActivationsHold(db'.events);
    assert Activations(db'.events) == Activations(db.events);
  }

  /** Manager calls, uploads and failures leave the activation history alone. */
  lemma OtherCallsKeep(db: Db, sent: set<Request>, m: Mutation)
    requires DbInv(db, sent) && !m.ActivateCall?
    ensures DbInv(Apply(db, m).0, sent) && Evolves(db, Apply(db, m).0)
    ensures History(Apply(db, m).0) == History(db)
  {
    hide Inv, Evolves, Apply;
    var db' := Apply(db, m).0;
    ApplyKeeps(db, m);
    OtherCallsKeepHistory(db, m);
    EvolvesPrefix(db, db');
    BoundStays(db, db');
  }

  lemma EvolvesPrefix(db: Db, db': Db)
    requires Evolves(db, db')
    ensures IsPrefix(db.events, db'.events)
  {
  }

  lemma OtherCallsKeepHistory(db: Db, m: Mutation)
    requires Inv(db) && !m.ActivateCall?
    ensures History(Apply(db, m).0) == History(db)
  {
    hide Inv, Evolves;
    match m
    case CreateCall(revisions, id, newId) => CreateKeeps(db, revisions, id, newId);
    case DiscardCall(setId, id) => DiscardKeeps(db, setId, id);
    case CloneCall(expected, previous, id, newId) => CloneKeeps(db, expected, previous, id, newId);
    case FailCall(setId, expected, id, code) => MarkFailedKeeps(db, setId, expected, id, code);
    case UploadCall(upload) => UploadKeeps(db, upload);
    case ArchiveSkillCall(skill, digest, nonce) => ArchiveSkillKeeps(db, skill, digest, nonce);
    case ArchiveRevisionCall(revision) => ArchiveRevisionKeeps(db, revision);
  }

  ghost function RunActivate(db: Db, c: Command, clockAdvanced: bool): (Db, Outcome) {
    Activate(db, c.setId, c.expected, IdentOf(c), clockAdvanced)
  }

  ghost function RunFail(db: Db, c: Command, code: string): (Db, Outcome) {
    MarkFailed(db, c.setId, c.expected, IdentOf(c), code)
  }

  /** A request that commits extends the history by its set; a replayed one finds it there. */
  lemma ActivateRequestKeeps(db: Db, sent: set<Request>, c: Command, clockAdvanced: bool)
    requires DbInv(db, sent)
    ensures
      var (db', out) := RunActivate(db, c, clockAdvanced);
      && DbInv(db', sent) && Evolves(db, db')
      && (History(db') == History(db) || (|History(db)| == c.expected && History(db') == History(db) + [c.setId]))
      && (out.Done? ==> out.version == c.expected + 1 && Landed(db', c))
      && (out.Rejected? ==> db' == db)
  {
    var (db', out) := RunActivate(db, c, clockAdvanced);
    ActivateKeeps(db, c.setId, c.expected, IdentOf(c), clockAdvanced);
    if db' == db {
      if out.Done? {
        ReplayedActivation(db, c, clockAdvanced);
      }
    } else {
      CommittedActivationBound(db, c, clockAdvanced);
    }
  }

  lemma CommittedActivationBound(db: Db, c: Command, clockAdvanced: bool)
    requires Bound(db.events) && RunActivate(db, c, clockAdvanced).0 != db
    ensures Bound(RunActivate(db, c, clockAdvanced).0.events)
  {
    hide Admit, AllUsable, SyncCurrent;
    var e := Event(ActivateSet, SetTarget(c.setId), IdentOf(c), c.setId, c.expected + 1);
    assert RunActivate(db, c, clockAdvanced).0.events == db.events + [e];
  }

  lemma ReplayedActivation(db: Db, c: Command, clockAdvanced: bool)
    requires Inv(db) && Bound(db.events)
    requires RunActivate(db, c, clockAdvanced).0 == db && RunActivate(db, c, clockAdvanced).1.Done?
    ensures RunActivate(db, c, clockAdvanced).1.version == c.expected + 1 && Landed(db, c)
  {
    var e := ReplayedEvent(db, c, clockAdvanced);
    assert EventHolds(db.sets, e);
    var i := ActivationInHistory(db, e);
    assert Hash([e.resultVersion - 1, e.ident.requestId, e.resultSet]).fields[0] == c.expected;
  }

  /** The event a replayed call of the coordinator found. */
  lemma ReplayedEvent(db: Db, c: Command, clockAdvanced: bool) returns (e: Event)
    requires RunActivate(db, c, clockAdvanced).0 == db && RunActivate(db, c, clockAdvanced).1.Done?
    ensures e in db.events && e.action == ActivateSet && e.target == SetTarget(c.setId)
    ensures e.ident.fingerprint == Hash([c.expected, c.requestId, c.setId])
    ensures RunActivate(db, c, clockAdvanced).1 == Done(c.setId, e.resultVersion)
  {
    hide AllUsable, SyncCurrent;
    IsReplay(db, c, clockAdvanced);
    e := Admit(db, ActivateSet, SetTarget(c.setId), IdentOf(c)).event;
  }

  /** An activation that changed nothing and still succeeded was a replay. */
  lemma IsReplay(db: Db, c: Command, clockAdvanced: bool)
    requires RunActivate(db, c, clockAdvanced).0 == db && RunActivate(db, c, clockAdvanced).1.Done?
    ensures Admit(db, ActivateSet, SetTarget(c.setId), IdentOf(c)).Replay?
  {
    hide AllUsable, SyncCurrent, Admit;
    var e := Event(ActivateSet, SetTarget(c.setId), IdentOf(c), c.setId, c.expected + 1);
    assert |db.events + [e]| == |db.events| + 1;
  }

  /** A failure reported as done leaves the set failed, now or by the earlier call it replays. */
  lemma FailRequestKeeps(db: Db, sent: set<Request>, c: Command, code: string)
    requires DbInv(db, sent)
    ensures
      var (db', out) := RunFail(db, c, code);
      && DbInv(db', sent) && Evolves(db, db') && History(db') == History(db)
      && (out.Done? ==> Fenced(db', c.setId))
  {
    var m := FailCall(c.setId, c.expected, IdentOf(c), code);
    assert Apply(db, m) == RunFail(db, c, code);
    hide Apply, MarkFailed, Inv, Evolves, Bound, History;
    OtherCallsKeep(db, sent, m);
    FailedIsFenced(db, c, code);
  }

  lemma FailedIsFenced(db: Db, c: Command, code: string)
    requires Inv(db)
    ensures RunFail(db, c, code).1.Done? ==> Fenced(RunFail(db, c, code).0, c.setId)
  {
    match Admit(db, FailSet, SetTarget(c.setId), IdentOf(c))
    case Replay(e) => assert EventHolds(db.sets, e);
    case _ =>
  }
}
