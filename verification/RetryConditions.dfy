/**
 When a repeated call is harmless: the tables tell, right after the first call, whether any later repetition
 of the same request can still change anything.
 */
module RetryConditions {
  import opened Common
  import opened Registry
  import opened RegistryInvariants
  import opened RegistryTheorems

  /** No repetition of the request, whenever it comes, changes the database. */
  ghost predicate Harmless(d: Db, m: Mutation) {
    forall between: seq<Mutation>, n: Mutation :: SameCall(m, n) ==> Apply(Run(d, between), n).0 == Run(d, between)
  }

  // ---------------------------------------------------------------------------
  // What a caller can check

  /** No event holds the request's key or its nonce. */
  ghost predicate Unseen(d: Db, m: Mutation)
    requires IsSetCall(m)
  {
    Admit(d, EventKey(m).0, EventKey(m).1, m.id) == Fresh
  }

  predicate StillCandidate(d: Db, setId: Uuid) {
    setId in d.sets ==> d.sets[setId].state == Candidate
  }

  predicate StillUsable(d: Db, setId: Uuid) {
    setId in d.sets ==> AllUsable(d, d.sets[setId].items)
  }

  /** The least the requested revisions can sum up to: those still to be uploaded have at least one byte. */
  ghost function LeastSize(d: Db, revisions: seq<Uuid>): nat {
    if revisions == [] then 0
    else (if revisions[0] in d.revisions then d.revisions[revisions[0]].size else 1) + LeastSize(d, revisions[1..])
  }

  /** The requested revisions that exist are usable and of different skills. */
  predicate ExistingFit(d: Db, revisions: seq<Uuid>) {
    && (forall i :: 0 <= i < |revisions| && revisions[i] in d.revisions ==> Usable(d, revisions[i]))
    && (forall i, j :: 0 <= i < j < |revisions| && revisions[i] in d.revisions && revisions[j] in d.revisions ==>
          d.revisions[revisions[i]].skill != d.revisions[revisions[j]].skill)
  }

  /** The set can still be the previous one at the expected version. */
  predicate WithinReach(d: Db, expected: nat, previous: Uuid) {
    var version := Version(d);
    if version == expected then
      && d.pointer.Some? && d.pointer.value.previous == Some(previous)
      && StillUsable(d, previous)
    else if previous in d.sets && d.sets[previous].state == Active then expected == version + 1
    else version + 2 <= expected && StillCandidate(d, previous) && StillUsable(d, previous)
  }

  /** The skill is at the digest, or no archived revision of the skill holds it. */
  ghost predicate DigestWithinReach(d: Db, skill: Uuid, digest: nat) {
    skill in d.skills ==>
      && !d.skills[skill].archived
      && (CurrentDigestIs(d, skill, digest)
          || forall r :: DigestOwner(d, skill, digest, r) ==> !d.revisions[r].archived)
  }

  ghost predicate UploadMayRun(d: Db, c: UploadCommand) {
    && c.nonce !in d.uploadNonces
    && (c.target.Some? ==>
          && c.expectedDigest.Some?
          && (c.target.value in d.skills ==> d.skills[c.target.value].slug == c.slug)
          && DigestWithinReach(d, c.target.value, c.expectedDigest.value))
  }

  ghost predicate CreateMayRun(d: Db, revisions: seq<Uuid>, id: Ident) {
    && |revisions| <= MAX_ITEMS && NoRepeat(revisions)
    && !RequestTaken(d, id.actor, id.requestId)
    && ExistingFit(d, revisions) && LeastSize(d, revisions) <= MAX_TOTAL_SIZE
  }

  ghost predicate CloneMayRun(d: Db, expected: nat, previous: Option<Uuid>, id: Ident) {
    && expected > 0 && previous.Some? && Version(d) <= expected
    && !RequestTaken(d, id.actor, id.requestId)
    && WithinReach(d, expected, previous.value)
  }

  /** Some later repetition of the request can still change the database. */
  ghost predicate MayStillRun(d: Db, m: Mutation) {
    match m
    case CreateCall(revisions, id, _) => Unseen(d, m) && CreateMayRun(d, revisions, id)
    case DiscardCall(setId, _) => Unseen(d, m) && StillCandidate(d, setId)
    case CloneCall(expected, previous, id, _) => Unseen(d, m) && CloneMayRun(d, expected, previous, id)
    case ActivateCall(setId, expected, _, _) =>
      Unseen(d, m) && Version(d) <= expected && StillCandidate(d, setId) && StillUsable(d, setId)
    case FailCall(setId, expected, _, _) => Unseen(d, m) && Version(d) <= expected && StillCandidate(d, setId)
    case UploadCall(upload) => UploadMayRun(d, upload)
    case ArchiveSkillCall(skill, digest, nonce) => nonce !in d.uploadNonces && DigestWithinReach(d, skill, digest)
    case ArchiveRevisionCall(revision) => revision in d.revisions ==> !d.revisions[revision].archived
  }

  // ---------------------------------------------------------------------------
  // A repetition that changes something was possible all along

  lemma UnseenBefore(d: Db, later: Db, action: Action, target: Target, id: Ident)
    requires IsPrefix(d.events, later.events) && Admit(later, action, target, id) == Fresh
    ensures Admit(d, action, target, id) == Fresh
  {
    assert forall e :: e in d.events ==> e in later.events;
  }

  lemma UsableBefore(d: Db, later: Db, setId: Uuid)
    requires Inv(d) && Evolves(d, later) && StillUsable(later, setId)
    ensures StillUsable(d, setId)
  {
    if setId in d.sets {
      RowOf(d, setId);
      hide Inv;
      var items := d.sets[setId].items;
      forall k | 0 <= k < |items|
        ensures Usable(d, items[k].revision)
      {
        assert ItemHolds(d, items[k]) && Usable(later, items[k].revision);
      }
    }
  }

  lemma VersionGrows(d: Db, later: Db)
    requires Inv(d) && Inv(later) && Evolves(d, later)
    ensures Version(d) <= Version(later)
    ensures Version(d) == |History(d)| && Version(later) == |History(later)|
  {
    assert PointerInv(d) && PointerInv(later);
  }

  lemma RequestTakenLater(d: Db, later: Db, actor: Uuid, requestId: Uuid)
    requires SetsEvolve(d.sets, later.sets) && RequestTaken(d, actor, requestId)
    ensures RequestTaken(later, actor, requestId)
  {
  }

  lemma DiscardMayHaveRun(d: Db, later: Db, m: Mutation)
    requires m.DiscardCall? && Inv(d) && Evolves(d, later) && Apply(later, m).0 != later
    ensures MayStillRun(d, m)
  {
    hide Inv, Admit;
    UnseenBefore(d, later, DiscardSet, SetTarget(m.setId), m.id);
  }

  lemma FailMayHaveRun(d: Db, later: Db, m: Mutation)
    requires m.FailCall? && Inv(d) && Inv(later) && Evolves(d, later) && Apply(later, m).0 != later
    ensures MayStillRun(d, m)
  {
    hide Inv, Admit, History;
    UnseenBefore(d, later, FailSet, SetTarget(m.setId), m.id);
    VersionGrows(d, later);
  }

  lemma ActivateMayHaveRun(d: Db, later: Db, m: Mutation, n: Mutation)
    requires m.ActivateCall? && SameCall(m, n)
    requires Inv(d) && Inv(later) && Evolves(d, later) && Apply(later, n).0 != later
    ensures MayStillRun(d, m)
  {
    hide Inv, Admit, History, AllUsable, SyncCurrent;
    UnseenBefore(d, later, ActivateSet, SetTarget(m.setId), m.id);
    VersionGrows(d, later);
    UsableBefore(d, later, m.setId);
  }

  lemma {:induction false} LeastSizeGrows(d: Db, later: Db, revisions: seq<Uuid>)
    requires RevisionsEvolve(d.revisions, later.revisions)
    requires forall r :: r in revisions ==> r in later.revisions
    ensures LeastSize(d, revisions) <= TotalSize(later, revisions)
  {
    if revisions != [] {
      LeastSizeGrows(d, later, revisions[1..]);
    }
  }

  lemma FitBefore(d: Db, later: Db, revisions: seq<Uuid>)
    requires OwnersHold(d) && RevisionsEvolve(d.revisions, later.revisions) && SkillsEvolve(d, later)
    requires forall r :: r in revisions ==> Usable(later, r)
    requires forall r :: r in revisions ==> r in later.revisions
    requires SkillsDiffer(SelectItems(later, revisions))
    ensures ExistingFit(d, revisions)
  {
    var items := SelectItems(later, revisions);
    forall i | 0 <= i < |revisions| && revisions[i] in d.revisions
      ensures Usable(d, revisions[i])
    {
      assert Usable(later, revisions[i]);
    }
    forall i, j | 0 <= i < j < |revisions| && revisions[i] in d.revisions && revisions[j] in d.revisions
      ensures d.revisions[revisions[i]].skill != d.revisions[revisions[j]].skill
    {
      assert items[i].skill != items[j].skill;
    }
  }

  lemma CreateMayHaveRun(d: Db, later: Db, m: Mutation, n: Mutation)
    requires m.CreateCall? && SameCall(m, n)
    requires Inv(d) && Evolves(d, later) && Apply(later, n).0 != later
    ensures MayStillRun(d, m)
  {
    assert OwnersHold(d);
    hide Inv, Admit, History, TotalSize, Candidates, OwnersHold, RevisionsEvolve, SkillsEvolve, ExistingFit;
    UnseenBefore(d, later, CreateSet, AgentTarget, m.id);
    if RequestTaken(d, m.id.actor, m.id.requestId) {
      RequestTakenLater(d, later, m.id.actor, m.id.requestId);
    }
    FitBefore(d, later, m.revisions);
    LeastSizeGrows(d, later, m.revisions);
  }

  /** The set that is the previous one at the expected version came there by a way that was open. */
  lemma ReachBefore(d: Db, later: Db, expected: nat, previous: Uuid)
    requires Inv(d) && Inv(later) && Evolves(d, later)
    requires later.pointer.Some? && later.pointer.value.version == expected && later.pointer.value.previous == Some(previous)
    requires StillUsable(later, previous)
    ensures WithinReach(d, expected, previous)
  {
    hide Inv, History, Evolves, AllUsable;
    VersionGrows(d, later);
    UsableBefore(d, later, previous);
    var g, h := History(d), History(later);
    HistoryFacts(d);
    HistoryFacts(later);
    HistoryGrows(d, later);
    assert |h| == expected && expected >= 2 && h[expected - 2] == previous;
    if |g| == expected {
      assert g == h;
    } else if |g| == expected - 1 {
      assert g[|g| - 1] == previous;
    } else {
      NotYetActivated(d, g, h, expected - 2);
    }
  }

  lemma HistoryGrows(d: Db, later: Db)
    requires Evolves(d, later)
    ensures SetsEvolve(d.sets, later.sets) && IsPrefix(History(d), History(later))
  {
  }

  lemma HistoryFacts(d: Db)
    requires Inv(d)
    ensures d.pointer == PointerOf(History(d)) && StatesFollowHistory(d.sets, History(d)) && Distinct(History(d))
  {
    assert PointerInv(d);
  }

  /** A set of the later part of the history was none of the earlier. */
  lemma NotYetActivated(d: Db, g: seq<Uuid>, h: seq<Uuid>, i: nat)
    requires IsPrefix(g, h) && Distinct(h) && |g| <= i < |h|
    ensures h[i] !in g
  {
  }

  lemma CloneMayHaveRun(d: Db, later: Db, m: Mutation, n: Mutation)
    requires m.CloneCall? && SameCall(m, n)
    requires Inv(d) && Inv(later) && Evolves(d, later) && Apply(later, n).0 != later
    ensures MayStillRun(d, m)
  {
    hide Inv, Admit, History, Candidates, AllUsable, WithinReach;
    UnseenBefore(d, later, CloneSet, PreviousTarget, m.id);
    VersionGrows(d, later);
    if RequestTaken(d, m.id.actor, m.id.requestId) {
      RequestTakenLater(d, later, m.id.actor, m.id.requestId);
    }
    ReachBefore(d, later, m.expected, m.previous.value);
  }

  /** A digest the skill got to later was not held by an archived revision it had left. */
  lemma DigestBefore(d: Db, later: Db, skill: Uuid, digest: nat)
    requires SkillsInv(later) && RevisionsEvolve(d.revisions, later.revisions) && SkillsEvolve(d, later)
    requires skill in later.skills && !later.skills[skill].archived && CurrentDigestIs(later, skill, digest)
    ensures DigestWithinReach(d, skill, digest)
  {
    if skill in d.skills && !CurrentDigestIs(d, skill, digest) {
      forall r | DigestOwner(d, skill, digest, r)
        ensures !d.revisions[r].archived
      {
        assert r == later.skills[skill].current;
      }
    }
  }

  /** What archives and uploads depend on. */
  lemma SkillParts(d: Db, later: Db)
    requires Inv(later) && Evolves(d, later)
    ensures SkillsInv(later) && RevisionsEvolve(d.revisions, later.revisions) && SkillsEvolve(d, later)
    ensures d.uploadNonces <= later.uploadNonces
  {
  }

  lemma UploadOpen(d: Db, later: Db, upload: UploadCommand)
    requires SkillsInv(later) && RevisionsEvolve(d.revisions, later.revisions) && SkillsEvolve(d, later)
    requires d.uploadNonces <= later.uploadNonces && Upload(later, upload).0 != later
    ensures UploadMayRun(d, upload)
  {
    hide SkillsInv, RevisionsEvolve, AddRevision, DigestOwner, SlugOwner, DigestWithinReach;
    if upload.target.Some? {
      DigestBefore(d, later, upload.target.value, upload.expectedDigest.value);
    }
  }

  lemma UploadMayHaveRun(d: Db, later: Db, m: Mutation, n: Mutation)
    requires m.UploadCall? && SameCall(m, n)
    requires Inv(d) && Inv(later) && Evolves(d, later) && Apply(later, n).0 != later
    ensures MayStillRun(d, m)
  {
    hide Inv, Evolves, SkillsInv, RevisionsEvolve, SkillsEvolve, Upload, UploadMayRun;
    SkillParts(d, later);
    UploadOpen(d, later, n.upload);
    SameUpload(d, m.upload, n.upload);
  }

  lemma SameUpload(d: Db, a: UploadCommand, b: UploadCommand)
    requires UploadMayRun(d, b) && SameCall(UploadCall(a), UploadCall(b))
    ensures UploadMayRun(d, a)
  {
    hide DigestWithinReach;
  }

  lemma ArchiveSkillMayHaveRun(d: Db, later: Db, m: Mutation)
    requires m.ArchiveSkillCall?
    requires Inv(d) && Inv(later) && Evolves(d, later) && Apply(later, m).0 != later
    ensures MayStillRun(d, m)
  {
    hide Inv, Evolves, SkillsInv, RevisionsEvolve, SkillsEvolve, InActiveSet, DigestWithinReach, CurrentDigestIs;
    SkillParts(d, later);
    DigestBefore(d, later, m.skill, m.digest);
  }

  lemma ArchiveRevisionMayHaveRun(d: Db, later: Db, m: Mutation)
    requires m.ArchiveRevisionCall?
    requires Inv(d) && Inv(later) && Evolves(d, later) && Apply(later, m).0 != later
    ensures MayStillRun(d, m)
  {
    hide Inv, Evolves, SkillsInv, SkillsEvolve, InActiveOrPrevious;
    SkillParts(d, later);
  }

  lemma MayHaveRun(d: Db, later: Db, m: Mutation, n: Mutation)
    requires Inv(d) && Inv(later) && Evolves(d, later) && SameCall(m, n) && Apply(later, n).0 != later
    ensures MayStillRun(d, m)
  {
    hide Inv, Evolves, Apply, MayStillRun;
    match m
    case CreateCall(_, _, _) => CreateMayHaveRun(d, later, m, n);
    case DiscardCall(_, _) => DiscardMayHaveRun(d, later, m);
    case CloneCall(_, _, _, _) => CloneMayHaveRun(d, later, m, n);
    case ActivateCall(_, _, _, _) => ActivateMayHaveRun(d, later, m, n);
    case FailCall(_, _, _, _) => FailMayHaveRun(d, later, m);
    case UploadCall(_) => UploadMayHaveRun(d, later, m, n);
    case ArchiveSkillCall(_, _, _) => ArchiveSkillMayHaveRun(d, later, m);
    case ArchiveRevisionCall(_) => ArchiveRevisionMayHaveRun(d, later, m);
  }
}
