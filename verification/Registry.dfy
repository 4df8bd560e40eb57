/**
 The tables of the skill registry and the transactions over them, each as one function from the
 database before to the database after and the outcome of the call.  A RAISE aborts its transaction,
 so a rejected call leaves the database as it was.
 */
module Registry {
  import opened Common

  datatype SetState = Candidate | Active | Superseded | Failed | Discarded

  datatype Item = Item(skill: Uuid, revision: Uuid)

  /** One row of agent_skill_sets with its rows of agent_skill_set_items in ordinal order. */
  datatype SetRow = SetRow(
    state: SetState,
    createdBy: Uuid,
    requestId: Uuid,
    items: seq<Item>,
    totalSize: nat,
    failureCode: Option<string>)

  datatype Pointer = Pointer(active: Uuid, previous: Option<Uuid>, version: nat)

  datatype Action = CreateSet | DiscardSet | CloneSet | ActivateSet | FailSet

  /** The canonical target of an event: the agent, the agent's previous set, or one set. */
  datatype Target = AgentTarget | PreviousTarget | SetTarget(id: Uuid)

  /** A SHA-256 fingerprint, idealised as the injective image of the hashed fields. */
  datatype Fingerprint = Hash(fields: seq<nat>)

  datatype Ident = Ident(actor: Uuid, requestId: Uuid, nonce: Uuid, fingerprint: Fingerprint)

  datatype Event = Event(
    action: Action,
    target: Target,
    ident: Ident,
    resultSet: Uuid,
    resultVersion: nat)

  datatype Skill = Skill(slug: string, archived: bool, current: Uuid)

  /** The size an artifact is stored with; packages of other sizes are refused before the transaction. */
  type ExtractedSize = x: nat | 1 <= x <= 20971520 witness 1

  datatype Revision = Revision(skill: Uuid, archived: bool, digest: nat, size: ExtractedSize)

  datatype Db = Db(
    sets: map<Uuid, SetRow>,
    pointer: Option<Pointer>,
    events: seq<Event>,
    skills: map<Uuid, Skill>,
    revisions: map<Uuid, Revision>,
    uploadNonces: set<Uuid>)

  const EMPTY := Db(map[], None, [], map[], map[], {})

  const MAX_ITEMS: nat := 16
  const MAX_TOTAL_SIZE: nat := 25165824
  const MAX_CANDIDATES: nat := 20

  /** SQLSTATE codes of the set functions and the error codes of the upload repository. */
  datatype Failure =
    | StaleState         // 40001
    | IdempotencyClash   // 23505
    | InvalidRequest     // 22023
    | InvalidContent     // 23514
    | NotFound           // P0002
    | QuotaExceeded      // 54000
    | AssertionReplay
    | ValidationError
    | SkillNotFound
    | NameConflict
    | SkillChanged
    | SkillActive
    | StorageError

  datatype Outcome = Done(id: Uuid, version: nat) | Rejected(failure: Failure)

  datatype UploadCommand = UploadCommand(
    target: Option<Uuid>,
    expectedDigest: Option<nat>,
    slug: string,
    digest: nat,
    size: ExtractedSize,
    nonce: Uuid,
    newSkill: Uuid,
    newRevision: Uuid)

  // ---------------------------------------------------------------------------
  // Idempotency: replay lookup and one-time nonces

  predicate Matches(e: Event, action: Action, target: Target, actor: Uuid, requestId: Uuid) {
    e.action == action && e.target == target && e.ident.actor == actor && e.ident.requestId == requestId
  }

  function FindEvent(events: seq<Event>, action: Action, target: Target, actor: Uuid, requestId: Uuid): (r: Option<Event>)
    ensures r.Some? ==> r.value in events && Matches(r.value, action, target, actor, requestId)
    ensures r.None? ==> forall e :: e in events ==> !Matches(e, action, target, actor, requestId)
  {
    if events == [] then None
    else if Matches(events[0], action, target, actor, requestId) then Some(events[0])
    else FindEvent(events[1..], action, target, actor, requestId)
  }

  predicate NonceUsed(events: seq<Event>, nonce: Uuid) {
    exists e :: e in events && e.ident.nonce == nonce
  }

  datatype Admission = Fresh | Replay(event: Event) | Clash

  /** The replay lookup every set function makes under the advisory lock. */
  ghost function Admit(d: Db, action: Action, target: Target, id: Ident): Admission {
    match FindEvent(d.events, action, target, id.actor, id.requestId)
    case Some(e) =>
      if e.ident.fingerprint == id.fingerprint && e.ident.nonce == id.nonce then Replay(e) else Clash
    case None => if NonceUsed(d.events, id.nonce) then Clash else Fresh
  }

  // ---------------------------------------------------------------------------
  // Queries

  function Candidates(sets: map<Uuid, SetRow>): set<Uuid> {
    set s | s in sets && sets[s].state == Candidate
  }

  predicate Usable(d: Db, revision: Uuid) {
    && revision in d.revisions
    && !d.revisions[revision].archived
    && d.revisions[revision].skill in d.skills
    && !d.skills[d.revisions[revision].skill].archived
  }

  /** Every item is a published revision of an unarchived skill. */
  predicate AllUsable(d: Db, items: seq<Item>) {
    forall k :: 0 <= k < |items| ==> Usable(d, items[k].revision)
  }

  ghost function TotalSize(d: Db, revisions: seq<Uuid>): nat {
    if revisions == [] then 0
    else (if revisions[0] in d.revisions then d.revisions[revisions[0]].size else 0) + TotalSize(d, revisions[1..])
  }

  /** The rows selected for a new candidate, in the requested order. */
  function SelectItems(d: Db, revisions: seq<Uuid>): (items: seq<Item>)
    requires forall r :: r in revisions ==> r in d.revisions
    ensures |items| == |revisions|
    ensures forall k :: 0 <= k < |items| ==> items[k] == Item(d.revisions[revisions[k]].skill, revisions[k])
  {
    if revisions == [] then []
    else [Item(d.revisions[revisions[0]].skill, revisions[0])] + SelectItems(d, revisions[1..])
  }

  predicate NoRepeat(xs: seq<Uuid>) {
    forall i, j :: 0 <= i < j < |xs| ==> xs[i] != xs[j]
  }

  predicate SkillsDiffer(items: seq<Item>) {
    forall i, j :: 0 <= i < j < |items| ==> items[i].skill != items[j].skill
  }

  predicate HasSkill(items: seq<Item>, skill: Uuid) {
    exists k :: 0 <= k < |items| && items[k].skill == skill
  }

  predicate HasRevision(items: seq<Item>, revision: Uuid) {
    exists k :: 0 <= k < |items| && items[k].revision == revision
  }

  predicate InActiveSet(d: Db, skill: Uuid) {
    d.pointer.Some? && d.pointer.value.active in d.sets && HasSkill(d.sets[d.pointer.value.active].items, skill)
  }

  predicate InActiveOrPrevious(d: Db, revision: Uuid) {
    && d.pointer.Some?
    && (|| (d.pointer.value.active in d.sets && HasRevision(d.sets[d.pointer.value.active].items, revision))
        || (d.pointer.value.previous.Some? && d.pointer.value.previous.value in d.sets
            && HasRevision(d.sets[d.pointer.value.previous.value].items, revision)))
  }

  predicate RequestTaken(d: Db, actor: Uuid, requestId: Uuid) {
    exists s :: s in d.sets && d.sets[s].createdBy == actor && d.sets[s].requestId == requestId
  }

  predicate PointedSetIsActive(d: Db) {
    d.pointer.Some? && d.pointer.value.active in d.sets && d.sets[d.pointer.value.active].state == Active
  }

  function Version(d: Db): nat {
    if d.pointer.Some? then d.pointer.value.version else 0
  }

  // ---------------------------------------------------------------------------
  // Set functions

  ghost function InsertCandidate(d: Db, newId: Uuid, items: seq<Item>, size: nat, action: Action, target: Target, id: Ident): (Db, Outcome) {
    if newId in d.sets || RequestTaken(d, id.actor, id.requestId) then (d, Rejected(IdempotencyClash))
    else
      (d.(sets := d.sets[newId := SetRow(Candidate, id.actor, id.requestId, items, size, None)],
          events := d.events + [Event(action, target, id, newId, 0)]),
       Done(newId, 0))
  }

  ghost function Create(d: Db, revisions: seq<Uuid>, id: Ident, newId: Uuid): (Db, Outcome) {
    if |revisions| > MAX_ITEMS then (d, Rejected(InvalidRequest))
    else
      match Admit(d, CreateSet, AgentTarget, id)
      case Replay(e) => (d, Done(e.resultSet, 0))
      case Clash => (d, Rejected(IdempotencyClash))
      case Fresh =>
        if |Candidates(d.sets)| >= MAX_CANDIDATES then (d, Rejected(QuotaExceeded))
        else if !NoRepeat(revisions) then (d, Rejected(InvalidRequest))
        else if !forall r :: r in revisions ==> Usable(d, r) then (d, Rejected(InvalidRequest))
        else
          var items := SelectItems(d, revisions);
          if !SkillsDiffer(items) || TotalSize(d, revisions) > MAX_TOTAL_SIZE then (d, Rejected(InvalidRequest))
          else InsertCandidate(d, newId, items, TotalSize(d, revisions), CreateSet, AgentTarget, id)
  }

  ghost function Discard(d: Db, setId: Uuid, id: Ident): (Db, Outcome) {
    match Admit(d, DiscardSet, SetTarget(setId), id)
    case Replay(e) => (d, Done(e.resultSet, 0))
    case Clash => (d, Rejected(IdempotencyClash))
    case Fresh =>
      if setId !in d.sets then (d, Rejected(NotFound))
      else if d.sets[setId].state != Candidate then (d, Rejected(StaleState))
      else
        (d.(sets := d.sets[setId := d.sets[setId].(state := Discarded)],
            events := d.events + [Event(DiscardSet, SetTarget(setId), id, setId, 0)]),
         Done(setId, 0))
  }

  ghost function Clone(d: Db, expected: nat, expectedPrevious: Option<Uuid>, id: Ident, newId: Uuid): (Db, Outcome) {
    if expected == 0 then (d, Rejected(InvalidRequest))
    else
      match Admit(d, CloneSet, PreviousTarget, id)
      case Replay(e) => (d, Done(e.resultSet, 0))
      case Clash => (d, Rejected(IdempotencyClash))
      case Fresh =>
        if d.pointer.None? || d.pointer.value.version != expected || d.pointer.value.previous != expectedPrevious
        then (d, Rejected(StaleState))
        else if expectedPrevious.None? || expectedPrevious.value !in d.sets then (d, Rejected(InvalidContent))
        else
          var source := d.sets[expectedPrevious.value];
          if source.state != Superseded || !AllUsable(d, source.items) then (d, Rejected(InvalidContent))
          else if |Candidates(d.sets)| >= MAX_CANDIDATES then (d, Rejected(QuotaExceeded))
          else InsertCandidate(d, newId, source.items, source.totalSize, CloneSet, PreviousTarget, id)
  }

  /** The trigger that makes each activated item the current revision of its skill. */
  function SyncCurrent(skills: map<Uuid, Skill>, items: seq<Item>): (r: map<Uuid, Skill>)
    ensures r.Keys == skills.Keys
  {
    if items == [] then skills
    else
      var before := SyncCurrent(skills, items[..|items| - 1]);
      var item := items[|items| - 1];
      if item.skill in before then before[item.skill := before[item.skill].(current := item.revision)] else before
  }

  /** `clockAdvanced` is false when the pointer's update timestamp would not increase. */
  ghost function Activate(d: Db, setId: Uuid, expected: nat, id: Ident, clockAdvanced: bool): (Db, Outcome) {
    match Admit(d, ActivateSet, SetTarget(setId), id)
    case Replay(e) => (d, Done(setId, e.resultVersion))
    case Clash => (d, Rejected(IdempotencyClash))
    case Fresh =>
      if Version(d) != expected then (d, Rejected(StaleState))
      else if setId !in d.sets || d.sets[setId].state != Candidate then (d, Rejected(StaleState))
      else if !AllUsable(d, d.sets[setId].items) then (d, Rejected(InvalidContent))
      else if d.pointer.Some? && (!PointedSetIsActive(d) || !clockAdvanced) then (d, Rejected(InvalidContent))
      else
        var retired :=
          if d.pointer.Some?
          then d.sets[d.pointer.value.active := d.sets[d.pointer.value.active].(state := Superseded)]
          else d.sets;
        (Db(retired[setId := d.sets[setId].(state := Active)],
            Some(Pointer(setId, if d.pointer.Some? then Some(d.pointer.value.active) else None, expected + 1)),
            d.events + [Event(ActivateSet, SetTarget(setId), id, setId, expected + 1)],
            SyncCurrent(d.skills, d.sets[setId].items),
            d.revisions,
            d.uploadNonces),
         Done(setId, expected + 1))
  }

  ghost function MarkFailed(d: Db, setId: Uuid, expected: nat, id: Ident, code: string): (Db, Outcome) {
    match Admit(d, FailSet, SetTarget(setId), id)
    case Replay(e) => (d, Done(setId, 0))
    case Clash => (d, Rejected(IdempotencyClash))
    case Fresh =>
      if Version(d) != expected then (d, Rejected(StaleState))
      else if setId !in d.sets || d.sets[setId].state != Candidate then (d, Rejected(StaleState))
      else
        (d.(sets := d.sets[setId := d.sets[setId].(state := Failed, failureCode := Some(code))],
            events := d.events + [Event(FailSet, SetTarget(setId), id, setId, 0)]),
         Done(setId, 0))
  }

  // ---------------------------------------------------------------------------
  // Uploads and archiving

  predicate SlugOwner(d: Db, slug: string, skill: Uuid) {
    skill in d.skills && d.skills[skill].slug == slug && !d.skills[skill].archived
  }

  predicate DigestOwner(d: Db, skill: Uuid, digest: nat, revision: Uuid) {
    revision in d.revisions && d.revisions[revision].skill == skill && d.revisions[revision].digest == digest
  }

  predicate CurrentDigestIs(d: Db, skill: Uuid, digest: nat)
    requires skill in d.skills
  {
    DigestOwner(d, skill, digest, d.skills[skill].current)
  }

  /** The upload writes of one new published revision, after the skill row is settled. */
  ghost function AddRevision(d: Db, c: UploadCommand, skill: Uuid, isNew: bool): (Db, Outcome)
    requires skill in d.skills
  {
    var d' := d.(
      revisions := d.revisions[c.newRevision := Revision(skill, false, c.digest, c.size)],
      uploadNonces := d.uploadNonces + {c.nonce});
    if isNew || !InActiveSet(d, skill)
    then (d'.(skills := d.skills[skill := d.skills[skill].(current := c.newRevision)]), Done(c.newRevision, 0))
    else (d', Done(c.newRevision, 0))
  }

  ghost function Upload(d: Db, c: UploadCommand): (Db, Outcome) {
    if c.nonce in d.uploadNonces then (d, Rejected(AssertionReplay))
    else if c.target.Some? then
      var skill := c.target.value;
      if c.expectedDigest.None? then (d, Rejected(ValidationError))
      else if skill !in d.skills || d.skills[skill].archived then (d, Rejected(SkillNotFound))
      else if d.skills[skill].slug != c.slug then (d, Rejected(NameConflict))
      else if !CurrentDigestIs(d, skill, c.expectedDigest.value) then (d, Rejected(SkillChanged))
      else if exists r :: DigestOwner(d, skill, c.digest, r) then
        var duplicate :| DigestOwner(d, skill, c.digest, duplicate);
        (d.(uploadNonces := d.uploadNonces + {c.nonce}), Done(duplicate, 0))
      else if c.newRevision in d.revisions then (d, Rejected(StorageError))
      else AddRevision(d, c, skill, false)
    else if exists s :: SlugOwner(d, c.slug, s) then
      var skill :| SlugOwner(d, c.slug, skill);
      if exists r :: DigestOwner(d, skill, c.digest, r) then
        var duplicate :| DigestOwner(d, skill, c.digest, duplicate);
        (d.(uploadNonces := d.uploadNonces + {c.nonce}), Done(duplicate, 0))
      else (d, Rejected(NameConflict))
    else if c.newSkill in d.skills || c.newRevision in d.revisions then (d, Rejected(StorageError))
    else AddRevision(d.(skills := d.skills[c.newSkill := Skill(c.slug, false, c.newRevision)]), c, c.newSkill, true)
  }

  ghost function ArchiveSkill(d: Db, skill: Uuid, expectedDigest: nat, nonce: Uuid): (Db, Outcome) {
    if nonce in d.uploadNonces then (d, Rejected(AssertionReplay))
    else if skill !in d.skills || d.skills[skill].archived then (d, Rejected(SkillNotFound))
    else if !CurrentDigestIs(d, skill, expectedDigest) then (d, Rejected(SkillChanged))
    else if InActiveSet(d, skill) then (d, Rejected(SkillActive))
    else
      (d.(skills := d.skills[skill := d.skills[skill].(archived := true)], uploadNonces := d.uploadNonces + {nonce}),
       Done(skill, 0))
  }

  /** A direct UPDATE of a revision's state, as far as its two triggers let it through. */
  ghost function ArchiveRevision(d: Db, revision: Uuid): (Db, Outcome) {
    if revision !in d.revisions then (d, Done(revision, 0))
    else if d.revisions[revision].archived || InActiveOrPrevious(d, revision) then (d, Rejected(InvalidContent))
    else (d.(revisions := d.revisions[revision := d.revisions[revision].(archived := true)]), Done(revision, 0))
  }

  // ---------------------------------------------------------------------------
  // Histories

  datatype Mutation =
    | CreateCall(revisions: seq<Uuid>, id: Ident, newId: Uuid)
    | DiscardCall(setId: Uuid, id: Ident)
    | CloneCall(expected: nat, previous: Option<Uuid>, id: Ident, newId: Uuid)
    | ActivateCall(setId: Uuid, expected: nat, id: Ident, clockAdvanced: bool)
    | FailCall(setId: Uuid, expected: nat, id: Ident, code: string)
    | UploadCall(upload: UploadCommand)
    | ArchiveSkillCall(skill: Uuid, digest: nat, nonce: Uuid)
    | ArchiveRevisionCall(revision: Uuid)

  ghost function Apply(d: Db, m: Mutation): (Db, Outcome) {
    match m
    case CreateCall(revisions, id, newId) => Create(d, revisions, id, newId)
    case DiscardCall(setId, id) => Discard(d, setId, id)
    case CloneCall(expected, previous, id, newId) => Clone(d, expected, previous, id, newId)
    case ActivateCall(setId, expected, id, clockAdvanced) => Activate(d, setId, expected, id, clockAdvanced)
    case FailCall(setId, expected, id, code) => MarkFailed(d, setId, expected, id, code)
    case UploadCall(upload) => Upload(d, upload)
    case ArchiveSkillCall(skill, digest, nonce) => ArchiveSkill(d, skill, digest, nonce)
    case ArchiveRevisionCall(revision) => ArchiveRevision(d, revision)
  }

  ghost function Run(d: Db, h: seq<Mutation>): Db
    decreases |h|
  {
    if h == [] then d else Run(Apply(d, h[0]).0, h[1..])
  }
}
