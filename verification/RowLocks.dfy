/**
 Activation, skill archiving and targeted uploads as interleaved statements: every transaction reads
 what is committed when its statement starts, keeps its row locks until it ends, and publishes its
 writes at commit.  A blocked statement simply cannot run yet.
 */
module RowLocks {
  import opened Common

  type Tx = nat

  /** The columns of a skill row the transactions write. */
  datatype Row = Row(archived: bool, current: Uuid)

  /** Who locks a skill row: many with FOR SHARE, one with FOR UPDATE or a row update. */
  datatype Lock = Lock(sharers: set<Tx>, owner: Option<Tx>)

  const UNLOCKED := Lock({}, None)

  /**
   How far a transaction is.  An activation first locks its skills one by one, then checks that none is
   archived, then updates their current revisions.  `writes` says whether the upload's update matched.
   */
  datatype Transaction =
    | Activation(items: map<Uuid, Uuid>, stage: ActivationStage)
    | Archive(skill: Uuid, archiveStage: ArchiveStage)
    | Upload(target: Uuid, revision: Uuid, uploadStage: UploadStage)

  datatype ActivationStage = Locking | Checked | Synced
  datatype ArchiveStage = ArchiveBegun | ArchiveLocked | ArchiveCleared | ArchiveWritten
  datatype UploadStage = UploadBegun | UploadLocked | UploadWritten(writes: bool)

  /** `active` holds the items of the active set; `advisory` the holder of the advisory lock. */
  datatype State = State(
    skills: map<Uuid, Row>,
    active: map<Uuid, Uuid>,
    locks: map<Uuid, Lock>,
    advisory: Option<Tx>,
    running: map<Tx, Transaction>)

  datatype Step =
    | BeginActivation(tx: Tx, items: map<Uuid, Uuid>)
    | LockShared(tx: Tx, skill: Uuid)
    | CheckArchived(tx: Tx)
    | SyncCurrent(tx: Tx)
    | BeginArchive(tx: Tx, skill: Uuid)
    | LockArchived(tx: Tx)
    | ClearActive(tx: Tx)
    | WriteArchived(tx: Tx)
    | BeginUpload(tx: Tx, skill: Uuid, revision: Uuid)
    | LockUploaded(tx: Tx)
    | WriteCurrent(tx: Tx)
    | CreateSkill(skill: Uuid, revision: Uuid)
    | Commit(tx: Tx)
    | Abort(tx: Tx)

  function Initial(): State {
    State(map[], map[], map[], None, map[])
  }

  // ---------------------------------------------------------------------------
  // Locks

  function LockOf(s: State, skill: Uuid): Lock {
    if skill in s.locks then s.locks[skill] else UNLOCKED
  }

  predicate MayShare(l: Lock, tx: Tx) {
    l.owner.None? || l.owner == Some(tx)
  }

  predicate MayOwn(l: Lock, tx: Tx) {
    MayShare(l, tx) && l.sharers <= {tx}
  }

  function Share(s: State, skill: Uuid, tx: Tx): State {
    s.(locks := s.locks[skill := LockOf(s, skill).(sharers := LockOf(s, skill).sharers + {tx})])
  }

  function Own(s: State, skill: Uuid, tx: Tx): State {
    s.(locks := s.locks[skill := LockOf(s, skill).(owner := Some(tx))])
  }

  /** All rows a statement updates at once become owned. */
  function OwnAll(s: State, skills: set<Uuid>, tx: Tx): State {
    s.(locks := map k | k in s.locks.Keys + skills ::
                  if k in skills then LockOf(s, k).(owner := Some(tx)) else LockOf(s, k))
  }

  function Unlocked(l: Lock, tx: Tx): Lock {
    Lock(l.sharers - {tx}, if l.owner == Some(tx) then None else l.owner)
  }

  /** The end of a transaction gives up all its locks. */
  function End(s: State, tx: Tx): State {
    s.(locks := map k | k in s.locks :: Unlocked(s.locks[k], tx),
       advisory := if s.advisory == Some(tx) then None else s.advisory,
       running := s.running - {tx})
  }

  function Proceed(s: State, tx: Tx, t: Transaction): State {
    s.(running := s.running[tx := t])
  }

  // ---------------------------------------------------------------------------
  // Activation

  function ActivationStep(s: State, tx: Tx, t: Transaction, a: Step): Option<State>
    requires t.Activation?
  {
    match a
    case LockShared(_, skill) =>
      if t.stage.Locking? && skill in t.items && MayShare(LockOf(s, skill), tx) then Some(Share(s, skill, tx)) else None
    case CheckArchived(_) =>
      if !t.stage.Locking? || !forall k :: k in t.items ==> tx in LockOf(s, k).sharers then None
      else if forall k :: k in t.items ==> k in s.skills && !s.skills[k].archived
      then Some(Proceed(s, tx, t.(stage := Checked)))
      else Some(End(s, tx))
    case SyncCurrent(_) =>
      if t.stage.Checked? && forall k :: k in t.items ==> MayOwn(LockOf(s, k), tx)
      then Some(Proceed(OwnAll(s, t.items.Keys, tx), tx, t.(stage := Synced)))
      else None
    case Commit(_) => if t.stage.Synced? then Some(End(Activated(s, t.items), tx)) else None
    case _ => None
  }

  function Activated(s: State, items: map<Uuid, Uuid>): State {
    s.(skills := map k | k in s.skills :: if k in items then s.skills[k].(current := items[k]) else s.skills[k],
       active := items)
  }

  // ---------------------------------------------------------------------------
  // Archiving and uploads

  predicate Unarchived(s: State, skill: Uuid) {
    skill in s.skills && !s.skills[skill].archived
  }

  /** SELECT ... FOR UPDATE: the row is read again once the lock is granted. */
  function LockForUpdate(s: State, skill: Uuid, tx: Tx, next: Transaction): Option<State> {
    if !MayOwn(LockOf(s, skill), tx) then None
    else if Unarchived(s, skill) then Some(Proceed(Own(s, skill, tx), tx, next))
    else Some(End(s, tx))
  }

  function ArchiveStep(s: State, tx: Tx, t: Transaction, a: Step): Option<State>
    requires t.Archive?
  {
    match a
    case LockArchived(_) =>
      if t.archiveStage.ArchiveBegun? then LockForUpdate(s, t.skill, tx, t.(archiveStage := ArchiveLocked)) else None
    case ClearActive(_) =>
      if !t.archiveStage.ArchiveLocked? then None
      else if t.skill in s.active then Some(End(s, tx))
      else Some(Proceed(s, tx, t.(archiveStage := ArchiveCleared)))
    case WriteArchived(_) =>
      if !t.archiveStage.ArchiveCleared? then None
      else if t.skill in s.active then Some(End(s, tx))
      else Some(Proceed(s, tx, t.(archiveStage := ArchiveWritten)))
    case Commit(_) =>
      if t.archiveStage.ArchiveWritten? && t.skill in s.skills
      then Some(End(s.(skills := s.skills[t.skill := s.skills[t.skill].(archived := true)]), tx))
      else None
    case _ => None
  }

  function UploadStep(s: State, tx: Tx, t: Transaction, a: Step): Option<State>
    requires t.Upload?
  {
    match a
    case LockUploaded(_) =>
      if t.uploadStage.UploadBegun? then LockForUpdate(s, t.target, tx, t.(uploadStage := UploadLocked)) else None
    case WriteCurrent(_) =>
      if t.uploadStage.UploadLocked?
      then Some(Proceed(s, tx, t.(uploadStage := UploadWritten(t.target !in s.active))))
      else None
    case Commit(_) =>
      if !t.uploadStage.UploadWritten? || t.target !in s.skills then None
      else if t.uploadStage.writes
      then Some(End(s.(skills := s.skills[t.target := s.skills[t.target].(current := t.revision)]), tx))
      else Some(End(s, tx))
    case _ => None
  }

  // ---------------------------------------------------------------------------
  // All steps

  function Next(s: State, a: Step): Option<State> {
    match a
    case BeginActivation(tx, items) =>
      if tx in s.running || s.advisory.Some? then None
      else Some(Proceed(s.(advisory := Some(tx)), tx, Activation(items, Locking)))
    case BeginArchive(tx, skill) =>
      if tx in s.running then None else Some(Proceed(s, tx, Archive(skill, ArchiveBegun)))
    case BeginUpload(tx, skill, revision) =>
      if tx in s.running then None else Some(Proceed(s, tx, Upload(skill, revision, UploadBegun)))
    case CreateSkill(skill, revision) =>
      if skill in s.skills then None else Some(s.(skills := s.skills[skill := Row(false, revision)]))
    case Abort(tx) => if tx in s.running then Some(End(s, tx)) else None
    case _ =>
      if a.tx !in s.running then None
      else match s.running[a.tx]
        case Activation(_, _) => ActivationStep(s, a.tx, s.running[a.tx], a)
        case Archive(_, _) => ArchiveStep(s, a.tx, s.running[a.tx], a)
        case Upload(_, _, _) => UploadStep(s, a.tx, s.running[a.tx], a)
  }

  function Run(s: State, steps: seq<Step>): Option<State>
    decreases |steps|
  {
    if steps == [] then Some(s)
    else match Next(s, steps[0])
      case None => None
      case Some(t) => Run(t, steps[1..])
  }

  // ---------------------------------------------------------------------------
  // What every step keeps

  /** An owner shares its row with nobody else. */
  ghost predicate LocksInv(s: State) {
    forall k, tx :: k in s.locks && s.locks[k].owner == Some(tx) ==> s.locks[k].sharers <= {tx}
  }

  predicate Owns(s: State, skill: Uuid, tx: Tx) {
    LockOf(s, skill).owner == Some(tx)
  }

  predicate Shares(s: State, skill: Uuid, tx: Tx) {
    tx in LockOf(s, skill).sharers
  }

  /** Past its check an activation shares rows of unarchived skills only, and they stay unarchived. */
  ghost predicate ActivationHolds(s: State, tx: Tx, t: Transaction)
    requires t.Activation?
  {
    !t.stage.Locking? ==> forall k :: k in t.items ==> Shares(s, k, tx) && Unarchived(s, k)
  }

  /** Past its lock an archive or upload owns an unarchived row; past its check, one outside the active set. */
  ghost predicate UpdateHolds(s: State, tx: Tx, skill: Uuid, locked: bool, cleared: bool) {
    && (locked ==> Owns(s, skill, tx) && Unarchived(s, skill))
    && (cleared ==> locked && skill !in s.active)
  }

  ghost predicate TransactionHolds(s: State, tx: Tx, t: Transaction) {
    match t
    case Activation(_, _) => ActivationHolds(s, tx, t)
    case Archive(skill, stage) =>
      UpdateHolds(s, tx, skill, !stage.ArchiveBegun?, stage.ArchiveCleared? || stage.ArchiveWritten?)
    case Upload(skill, _, stage) =>
      UpdateHolds(s, tx, skill, !stage.UploadBegun?, stage.UploadWritten? && stage.writes)
  }

  /** The committed rows: no active skill is archived, and each is at the revision the active set names. */
  ghost predicate ActiveClean(s: State) {
    forall k :: k in s.active ==> k in s.skills && !s.skills[k].archived && s.skills[k].current == s.active[k]
  }

  ghost predicate Inv(s: State) {
    (
      && LocksInv(s)
      && (forall tx :: tx in s.running ==> TransactionHolds(s, tx, s.running[tx]))
      && (forall tx :: tx in s.running && s.running[tx].Activation? ==> s.advisory == Some(tx))
      && ActiveClean(s)
    ) == true
  }

  // ---------------------------------------------------------------------------
  // Locks exclude one another

  /** Ending a transaction without writes leaves what the others rely on. */
  lemma EndKeeps(s: State, tx: Tx)
    requires Inv(s)
    ensures Inv(End(s, tx))
  {
    forall other | other in s.running && other != tx
      ensures TransactionHolds(End(s, tx), other, s.running[other])
    {
      OtherKeepsHold(s, End(s, tx), tx, other);
    }
  }

  /** A step of tx that keeps the other transactions' locks and the rows they lock keeps what they hold. */
  lemma OtherKeepsHold(s: State, s': State, tx: Tx, other: Tx)
    requires other in s.running && other != tx && TransactionHolds(s, other, s.running[other])
    requires forall k :: Owns(s, k, other) ==> Owns(s', k, other)
    requires forall k :: Shares(s, k, other) ==> Shares(s', k, other)
    requires forall k :: (Owns(s, k, other) || Shares(s, k, other)) && Unarchived(s, k) ==> Unarchived(s', k)
    requires forall k :: Owns(s, k, other) && k !in s.active ==> k !in s'.active
    ensures TransactionHolds(s', other, s.running[other])
  {
  }

  /** What a step of tx must leave to the transactions beside it. */
  ghost predicate Spares(s: State, s': State, tx: Tx, other: Tx) {
    && (forall k :: Owns(s, k, other) ==> Owns(s', k, other))
    && (forall k :: Shares(s, k, other) ==> Shares(s', k, other))
    && (forall k :: (Owns(s, k, other) || Shares(s, k, other)) && Unarchived(s, k) ==> Unarchived(s', k))
    && (forall k :: Owns(s, k, other) && k !in s.active ==> k !in s'.active)
  }

  lemma StepKeeps(s: State, s': State, tx: Tx)
    requires Inv(s) && LocksInv(s') && ActiveClean(s')
    requires forall other :: other in s'.running && other != tx ==>
               other in s.running && s'.running[other] == s.running[other] && Spares(s, s', tx, other)
    requires tx in s'.running ==> TransactionHolds(s', tx, s'.running[tx])
    requires forall other :: other in s'.running && s'.running[other].Activation? ==> s'.advisory == Some(other)
    ensures Inv(s')
  {
    forall other | other in s'.running && other != tx
      ensures TransactionHolds(s', other, s'.running[other])
    {
      OtherKeepsHold(s, s', tx, other);
    }
  }

  lemma LockSharedKeeps(s: State, tx: Tx, skill: Uuid)
    requires Inv(s) && tx in s.running && s.running[tx].Activation? && s.running[tx].stage.Locking?
    requires MayShare(LockOf(s, skill), tx)
    ensures Inv(Share(s, skill, tx))
  {
    StepKeeps(s, Share(s, skill, tx), tx);
  }

  lemma SyncKeeps(s: State, tx: Tx)
    requires Inv(s) && tx in s.running && s.running[tx].Activation?
    requires Next(s, SyncCurrent(tx)).Some?
    ensures Inv(Next(s, SyncCurrent(tx)).value)
  {
    var t := s.running[tx];
    var s' := Proceed(OwnAll(s, t.items.Keys, tx), tx, t.(stage := Synced));
    forall other | other in s.running && other != tx
      ensures Spares(s, s', tx, other)
    {
    }
    StepKeeps(s, s', tx);
  }

  lemma ActivationCommitKeeps(s: State, tx: Tx)
    requires Inv(s) && tx in s.running && s.running[tx].Activation? && s.running[tx].stage.Synced?
    ensures Inv(Next(s, Commit(tx)).value)
  {
    var items := s.running[tx].items;
    var s' := End(Activated(s, items), tx);
    forall other | other in s'.running && other != tx
      ensures Spares(s, s', tx, other)
    {
      assert forall k :: k in items ==> Shares(s, k, tx);
    }
    StepKeeps(s, s', tx);
  }

  lemma LockForUpdateKeeps(s: State, tx: Tx, skill: Uuid, next: Transaction)
    requires Inv(s) && tx in s.running && !s.running[tx].Activation?
    requires next == Archive(skill, ArchiveLocked) || (next.Upload? && next.target == skill && next.uploadStage == UploadLocked)
    requires LockForUpdate(s, skill, tx, next).Some?
    ensures Inv(LockForUpdate(s, skill, tx, next).value)
  {
    if Unarchived(s, skill) {
      StepKeeps(s, Proceed(Own(s, skill, tx), tx, next), tx);
    } else {
      EndKeeps(s, tx);
    }
  }

  lemma ArchiveCommitKeeps(s: State, tx: Tx)
    requires Inv(s) && tx in s.running && s.running[tx].Archive? && s.running[tx].archiveStage.ArchiveWritten?
    ensures Next(s, Commit(tx)).Some? && Inv(Next(s, Commit(tx)).value)
  {
    var skill := s.running[tx].skill;
    assert Owns(s, skill, tx) && Unarchived(s, skill) && skill !in s.active;
    var s' := Next(s, Commit(tx)).value;
    forall other | other in s'.running && other != tx
      ensures Spares(s, s', tx, other)
    {
      assert !Owns(s, skill, other) && !Shares(s, skill, other);
    }
    StepKeeps(s, s', tx);
  }

  lemma UploadCommitKeeps(s: State, tx: Tx)
    requires Inv(s) && tx in s.running && s.running[tx].Upload? && s.running[tx].uploadStage.UploadWritten?
    requires Next(s, Commit(tx)).Some?
    ensures Inv(Next(s, Commit(tx)).value)
  {
    StepKeeps(s, Next(s, Commit(tx)).value, tx);
  }

  lemma BeginKeeps(s: State, a: Step)
    requires a.BeginActivation? || a.BeginArchive? || a.BeginUpload? || a.CreateSkill?
    requires Inv(s) && Next(s, a).Some?
    ensures Inv(Next(s, a).value)
  {
    hide ActivationStep, ArchiveStep, UploadStep;
    if !a.CreateSkill? {
      StepKeeps(s, Next(s, a).value, a.tx);
    }
  }

  lemma NextKeeps(s: State, a: Step)
    requires Inv(s) && Next(s, a).Some?
    ensures Inv(Next(s, a).value)
  {
    hide Inv, LockForUpdate, Share, End, MayShare;
    match a
    case BeginActivation(_, _) => BeginKeeps(s, a);
    case BeginArchive(_, _) => BeginKeeps(s, a);
    case BeginUpload(_, _, _) => BeginKeeps(s, a);
    case CreateSkill(_, _) => BeginKeeps(s, a);
    case Abort(tx) => EndKeeps(s, tx);
    case LockShared(tx, skill) => LockSharedKeeps(s, tx, skill);
    case CheckArchived(tx) => CheckKeeps(s, tx);
    case SyncCurrent(tx) => SyncKeeps(s, tx);
    case LockArchived(tx) =>
      LockForUpdateKeeps(s, tx, s.running[tx].skill, s.running[tx].(archiveStage := ArchiveLocked));
    case LockUploaded(tx) =>
      LockForUpdateKeeps(s, tx, s.running[tx].target, s.running[tx].(uploadStage := UploadLocked));
    case ClearActive(tx) => ClearKeeps(s, a);
    case WriteArchived(tx) => ClearKeeps(s, a);
    case WriteCurrent(tx) => ClearKeeps(s, a);
    case Commit(tx) => CommitKeeps(s, tx);
  }

  lemma CommitKeeps(s: State, tx: Tx)
    requires Inv(s) && Next(s, Commit(tx)).Some?
    ensures Inv(Next(s, Commit(tx)).value)
  {
    if s.running[tx].Activation? {
      ActivationCommitKeeps(s, tx);
    } else if s.running[tx].Archive? {
      ArchiveCommitKeeps(s, tx);
    } else {
      UploadCommitKeeps(s, tx);
    }
  }

  lemma CheckKeeps(s: State, tx: Tx)
    requires Inv(s) && Next(s, CheckArchived(tx)).Some?
    ensures Inv(Next(s, CheckArchived(tx)).value)
  {
    EndKeeps(s, tx);
    hide End;
  }

  lemma ClearKeeps(s: State, a: Step)
    requires a.ClearActive? || a.WriteArchived? || a.WriteCurrent?
    requires Inv(s) && Next(s, a).Some?
    ensures Inv(Next(s, a).value)
  {
    hide Inv, LocksInv, ActiveClean, TransactionHolds, End, LockForUpdate;
    if a.WriteCurrent? {
      WriteCurrentKeeps(s, a.tx, s.running[a.tx].target !in s.active);
    } else if s.running[a.tx].skill in s.active {
      EndKeeps(s, a.tx);
    } else {
      ClearedKeeps(s, a.tx, if a.ClearActive? then ArchiveCleared else ArchiveWritten);
    }
  }

  lemma WriteCurrentKeeps(s: State, tx: Tx, writes: bool)
    requires Inv(s) && tx in s.running && s.running[tx].Upload? && s.running[tx].uploadStage.UploadLocked?
    requires writes <==> s.running[tx].target !in s.active
    ensures Inv(Proceed(s, tx, s.running[tx].(uploadStage := UploadWritten(writes))))
  {
    StepKeeps(s, Proceed(s, tx, s.running[tx].(uploadStage := UploadWritten(writes))), tx);
  }

  lemma ClearedKeeps(s: State, tx: Tx, stage: ArchiveStage)
    requires Inv(s) && tx in s.running && s.running[tx].Archive? && s.running[tx].skill !in s.active
    requires s.running[tx].archiveStage.ArchiveLocked? || s.running[tx].archiveStage.ArchiveCleared?
    ensures Inv(Proceed(s, tx, s.running[tx].(archiveStage := stage)))
  {
    StepKeeps(s, Proceed(s, tx, s.running[tx].(archiveStage := stage)), tx);
  }

  lemma {:induction false} RunKeeps(s: State, steps: seq<Step>)
    requires Inv(s) && Run(s, steps).Some?
    ensures Inv(Run(s, steps).value)
    decreases |steps|
  {
    if steps != [] {
      NextKeeps(s, steps[0]);
      hide Inv, Next;
      RunKeeps(Next(s, steps[0]).value, steps[1..]);
    }
  }

  // ---------------------------------------------------------------------------
  // Every interleaving

  ghost predicate Reachable(s: State) {
    exists steps :: Run(Initial(), steps) == Some(s)
  }

  lemma ReachableInv(s: State)
    requires Reachable(s)
    ensures Inv(s)
  {
    var steps :| Run(Initial(), steps) == Some(s);
    RunKeeps(Initial(), steps);
  }

  /** In no interleaving is a skill of the active set archived, or at another revision than the set names. */
  lemma ActiveNeverArchived(s: State, skill: Uuid)
    requires Reachable(s) && skill in s.active
    ensures skill in s.skills && !s.skills[skill].archived && s.skills[skill].current == s.active[skill]
  {
    ReachableInv(s);
  }

  /** Past their locks, an activation of a skill and its archiving or upload are never under way together. */
  lemma LocksExclude(s: State, a: Tx, b: Tx, skill: Uuid)
    requires Reachable(s) && a in s.running && b in s.running
    requires s.running[a].Activation? && !s.running[a].stage.Locking? && skill in s.running[a].items
    requires s.running[b].Archive? || s.running[b].Upload?
    requires if s.running[b].Archive? then s.running[b].skill == skill else s.running[b].target == skill
    ensures s.running[b].Archive? ==> s.running[b].archiveStage.ArchiveBegun?
    ensures s.running[b].Upload? ==> s.running[b].uploadStage.UploadBegun?
  {
    ReachableInv(s);
    assert TransactionHolds(s, a, s.running[a]) && TransactionHolds(s, b, s.running[b]);
    assert Shares(s, skill, a);
  }

  /** An archived skill stays archived and out of the active set in every continuation. */
  lemma ArchivedStaysInactive(s: State, steps: seq<Step>, skill: Uuid)
    requires Reachable(s) && skill in s.skills && s.skills[skill].archived && Run(s, steps).Some?
    ensures
      var t := Run(s, steps).value;
      skill in t.skills && t.skills[skill].archived && skill !in t.active
  {
    ReachableInv(s);
    RunKeeps(s, steps);
    ArchivedForever(s, steps, skill);
  }

  lemma {:induction false} ArchivedForever(s: State, steps: seq<Step>, skill: Uuid)
    requires skill in s.skills && s.skills[skill].archived && Run(s, steps).Some?
    ensures skill in Run(s, steps).value.skills && Run(s, steps).value.skills[skill].archived
    decreases |steps|
  {
    if steps != [] {
      ArchivedNext(s, steps[0], skill);
      hide Next;
      ArchivedForever(Next(s, steps[0]).value, steps[1..], skill);
    }
  }

  lemma ArchivedNext(s: State, a: Step, skill: Uuid)
    requires skill in s.skills && s.skills[skill].archived && Next(s, a).Some?
    ensures skill in Next(s, a).value.skills && Next(s, a).value.skills[skill].archived
  {
  }

  /** An activation that commits reinstates its own revisions as current, whatever was uploaded meanwhile. */
  lemma ActivationCommits(s: State, tx: Tx, skill: Uuid)
    requires Reachable(s) && tx in s.running && s.running[tx].Activation? && Next(s, Commit(tx)).Some?
    requires skill in s.running[tx].items
    ensures
      var t := Next(s, Commit(tx)).value;
      && t.active == s.running[tx].items
      && Unarchived(t, skill) && t.skills[skill].current == s.running[tx].items[skill]
  {
    ReachableInv(s);
    assert TransactionHolds(s, tx, s.running[tx]);
  }

  /** An upload moves the current revision exactly when its skill was outside the active set, and it still is. */
  lemma UploadCommits(s: State, tx: Tx)
    requires Reachable(s) && tx in s.running && s.running[tx].Upload? && Next(s, Commit(tx)).Some?
    ensures
      var u, t := s.running[tx], Next(s, Commit(tx)).value;
      && t.active == s.active
      && (u.uploadStage.writes ==> u.target !in t.active && t.skills[u.target].current == u.revision)
      && (!u.uploadStage.writes ==> t.skills == s.skills)
  {
    ReachableInv(s);
    assert TransactionHolds(s, tx, s.running[tx]);
  }

  /**
   Whether the update of the current revision matches was settled at one moment of the run: it does exactly
   if the skill was outside the active set when the statement read it.
   */
  lemma {:induction false} UploadReadActiveSet(steps: seq<Step>, tx: Tx) returns (k: nat)
    requires Run(Initial(), steps).Some? && tx in Run(Initial(), steps).value.running
    requires var t := Run(Initial(), steps).value.running[tx]; t.Upload? && t.uploadStage.UploadWritten?
    ensures k < |steps| && steps[k] == WriteCurrent(tx) && Run(Initial(), steps[..k]).Some?
    ensures
      var t, read := Run(Initial(), steps).value.running[tx], Run(Initial(), steps[..k]).value;
      t.uploadStage.writes <==> t.target !in read.active
    decreases |steps|
  {
    var n := |steps| - 1;
    RunLast(Initial(), steps);
    var before := Run(Initial(), steps[..n]).value;
    if steps[n] == WriteCurrent(tx) {
      k := n;
    } else {
      WrittenBefore(before, steps[n], tx);
      hide Run, Next;
      k := UploadReadActiveSet(steps[..n], tx);
      assert steps[..n][..k] == steps[..k];
    }
  }

  lemma WrittenBefore(s: State, a: Step, tx: Tx)
    requires Next(s, a).Some? && a != WriteCurrent(tx) && tx in Next(s, a).value.running
    requires var t := Next(s, a).value.running[tx]; t.Upload? && t.uploadStage.UploadWritten?
    ensures tx in s.running && s.running[tx] == Next(s, a).value.running[tx]
  {
    hide MayOwn, MayShare, Unarchived, LockOf;
  }

  lemma {:induction false} RunLast(s: State, steps: seq<Step>)
    requires steps != [] && Run(s, steps).Some?
    ensures Run(s, steps[..|steps| - 1]).Some?
    ensures Next(Run(s, steps[..|steps| - 1]).value, steps[|steps| - 1]) == Run(s, steps)
    decreases |steps|
  {
    hide Next;
    if |steps| > 1 {
      RunLast(Next(s, steps[0]).value, steps[1..]);
      assert steps[1..][..|steps| - 2] == steps[..|steps| - 1][1..];
    } else {
      assert steps[..0] == [] && steps[1..] == [];
    }
  }
}
