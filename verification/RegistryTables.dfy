/**
 The set functions and upload transactions as they run: statement by statement on the tables, with the
 row triggers fired by each statement and a rollback on every RAISE.  Each method is proved to compute
 exactly the corresponding function of the database, so on a valid database no trigger ever vetoes
 what the function's own checks admitted, except the pointer's clock guard.
 */
module RegistryTables {
  import opened Common
  import opened Registry
  import opened RegistryInvariants

  // ---------------------------------------------------------------------------
  // Row triggers

  /** guard_agent_skill_set_update, together with the state's CHECK on failure_code. */
  predicate GuardSetUpdate(o: SetRow, n: SetRow) {
    && n.createdBy == o.createdBy && n.requestId == o.requestId
    && n.items == o.items && n.totalSize == o.totalSize
    && (|| (o.state == Candidate && n.state == Active && n.failureCode.None?)
        || (o.state == Candidate && n.state == Failed && n.failureCode.Some?)
        || (o.state == Candidate && n.state == Discarded && n.failureCode.None?)
        || (o.state == Active && n.state == Superseded && n.failureCode.None?))
  }

  /** guard_active_agent_skill_set_update. */
  predicate GuardPointerUpdate(o: Pointer, n: Pointer, clockAdvanced: bool) {
    n.version == o.version + 1 && n.previous == Some(o.active) && n.active != o.active && clockAdvanced
  }

  /** guard_skill_update; `active` is the skill's revision in the active set, if it has one. */
  predicate GuardSkillUpdate(o: Skill, n: Skill, manager: bool, active: Option<Uuid>) {
    && n.slug == o.slug
    && (n.archived == o.archived || (!o.archived && n.archived))
    && (o.archived ==> n.current == o.current)
    && (manager && !o.archived && n.archived ==> active.None?)
    && (manager && n.current != o.current && active.Some? ==> active.value == n.current)
  }

  /** reject_archived_skill_set_item lets the item in. */
  predicate AdmitsSetItem(skills: map<Uuid, Skill>, item: Item) {
    item.skill in skills && !skills[item.skill].archived
  }

  /** The join of an item with its revision and skill finds a row. */
  predicate Joined(d: Db, item: Item) {
    item.revision in d.revisions && d.revisions[item.revision].skill == item.skill && item.skill in d.skills
  }

  predicate Published(d: Db, item: Item) {
    Joined(d, item) && !d.revisions[item.revision].archived && !d.skills[item.skill].archived
  }

  /** What the deferred trigger validate_agent_skill_set_contents lets through at commit. */
  ghost predicate ContentsValid(d: Db, row: SetRow) {
    && row.state == Candidate
    && |row.items| <= MAX_ITEMS
    && (forall k :: 0 <= k < |row.items| ==> Published(d, row.items[k]))
    && SizeOf(d.revisions, row.items) <= MAX_TOTAL_SIZE
  }

  /** A row whose items hold and can be used is valid, and the trigger leaves its total as it is. */
  lemma UsableRowValid(d: Db, row: SetRow)
    requires RowHolds(d, row) && AllUsable(d, row.items) && row.state == Candidate
    requires row.totalSize == SizeOf(d.revisions, row.items)
    ensures ContentsValid(d, row) && row.(totalSize := SizeOf(d.revisions, row.items)) == row
  {
    forall k | 0 <= k < |row.items|
      ensures Published(d, row.items[k])
    {
      assert ItemHolds(d, row.items[k]) && Usable(d, row.items[k].revision);
    }
  }

  lemma ContentsAsBefore(d: Db, d': Db, row: SetRow)
    requires ContentsValid(d, row) && d'.skills == d.skills && d'.revisions == d.revisions
    ensures ContentsValid(d', row)
  {
    forall k | 0 <= k < |row.items|
      ensures Published(d', row.items[k])
    {
      assert Published(d, row.items[k]);
    }
  }

  lemma CreatedRowValid(d: Db, revisions: seq<Uuid>, id: Ident)
    requires forall r :: r in revisions ==> Usable(d, r) && r in d.revisions
    requires |revisions| <= MAX_ITEMS && TotalSize(d, revisions) <= MAX_TOTAL_SIZE && SkillsDiffer(SelectItems(d, revisions))
    ensures
      var items := SelectItems(d, revisions);
      var row := SetRow(Candidate, id.actor, id.requestId, items, TotalSize(d, revisions), None);
      AllUsable(d, items) && RowHolds(d, row) && row.totalSize == SizeOf(d.revisions, items)
  {
    SelectedItemsHold(d, revisions);
    SelectedSize(d, revisions);
    forall k | 0 <= k < |revisions|
      ensures Usable(d, SelectItems(d, revisions)[k].revision)
    {
      assert revisions[k] in revisions;
    }
  }

  lemma UsableRowAdmitted(d: Db, row: SetRow)
    requires RowHolds(d, row) && AllUsable(d, row.items)
    ensures forall k :: 0 <= k < |row.items| ==> AdmitsSetItem(d.skills, row.items[k])
  {
    forall k | 0 <= k < |row.items|
      ensures AdmitsSetItem(d.skills, row.items[k])
    {
      assert ItemHolds(d, row.items[k]) && Usable(d, row.items[k].revision);
    }
  }

  lemma UsableItemsAdmitted(d: Db, items: seq<Item>, revisions: seq<Uuid>)
    requires forall r :: r in revisions ==> Usable(d, r) && r in d.revisions
    requires items == SelectItems(d, revisions)
    ensures forall k :: 0 <= k < |items| ==> AdmitsSetItem(d.skills, items[k])
  {
    forall k | 0 <= k < |items|
      ensures AdmitsSetItem(d.skills, items[k])
    {
      assert Usable(d, revisions[k]);
    }
  }

  lemma PointedRow(d: Db)
    requires Inv(d)
    ensures d.pointer.Some? ==> PointedSetIsActive(d) && d.pointer.value.version >= 1
    ensures d.pointer.Some? ==> d.sets[d.pointer.value.active].failureCode.None?
  {
    if d.pointer.Some? {
      assert d.pointer.value.active in History(d);
      RowOf(d, d.pointer.value.active);
    }
  }

  class SkillRegistry {
    var sets: map<Uuid, SetRow>
    var pointer: Option<Pointer>
    var events: seq<Event>
    var skills: map<Uuid, Skill>
    var revisions: map<Uuid, Revision>
    var uploadNonces: set<Uuid>

    constructor ()
      ensures View() == EMPTY
    {
      sets, pointer, events, skills, revisions, uploadNonces := map[], None, [], map[], map[], {};
    }

    function View(): Db
      reads this
    {
      Db(sets, pointer, events, skills, revisions, uploadNonces)
    }

    /** A RAISE: the transaction's writes are undone. */
    method Rollback(saved: Db)
      modifies this
      ensures View() == saved
    {
      sets, pointer, events := saved.sets, saved.pointer, saved.events;
      skills, revisions, uploadNonces := saved.skills, saved.revisions, saved.uploadNonces;
    }

    // -------------------------------------------------------------------------
    // Queries inside a transaction

    method Lookup(action: Action, target: Target, id: Ident) returns (a: Admission)
      ensures a == Admit(View(), action, target, id)
    {
      match FindEvent(events, action, target, id.actor, id.requestId)
      case Some(e) =>
        a := if e.ident.fingerprint == id.fingerprint && e.ident.nonce == id.nonce then Replay(e) else Clash;
      case None =>
        var used := exists e :: e in events && e.ident.nonce == id.nonce;
        a := if used then Clash else Fresh;
    }

    method AnyUnusable(items: seq<Item>) returns (found: bool)
      ensures found <==> !AllUsable(View(), items)
    {
      found := false;
      for i := 0 to |items|
        invariant found <==> exists k :: 0 <= k < i && !Usable(View(), items[k].revision)
      {
        if !Usable(View(), items[i].revision) {
          found := true;
        }
      }
    }

    /** The skill's revision in the active set. */
    method ActiveRevision(skill: Uuid) returns (r: Option<Uuid>)
      ensures r.Some? <==> InActiveSet(View(), skill)
      ensures r.Some? ==> exists k :: 0 <= k < |sets[pointer.value.active].items|
                            && sets[pointer.value.active].items[k] == Item(skill, r.value)
    {
      r := None;
      if pointer.Some? && pointer.value.active in sets {
        var items := sets[pointer.value.active].items;
        for i := 0 to |items|
          invariant r.Some? <==> HasSkill(items[..i], skill)
          invariant r.Some? ==> exists k :: 0 <= k < i && items[k] == Item(skill, r.value)
        {
          assert items[..i + 1][i] == items[i];
          assert forall k :: 0 <= k < i ==> items[..i + 1][k] == items[..i][k];
          if items[i].skill == skill {
            r := Some(items[i].revision);
          }
        }
        assert items[..|items|] == items;
      }
    }

    // -------------------------------------------------------------------------
    // Writes inside a transaction

    /** INSERT of a candidate, its items one by one, and its event; every unique key is checked. */
    method InsertCandidateRow(newId: Uuid, items: seq<Item>, size: nat, action: Action, target: Target, id: Ident)
      returns (out: Outcome)
      requires forall k :: 0 <= k < |items| ==> AdmitsSetItem(skills, items[k])
      modifies this`sets, this`events
      ensures (View(), out) == InsertCandidate(old(View()), newId, items, size, action, target, id)
    {
      if newId in sets || RequestTaken(View(), id.actor, id.requestId) {
        return Rejected(IdempotencyClash);
      }
      sets := sets[newId := SetRow(Candidate, id.actor, id.requestId, [], size, None)];
      for i := 0 to |items|
        invariant events == old(events)
        invariant sets == old(sets)[newId := SetRow(Candidate, id.actor, id.requestId, items[..i], size, None)]
      {
        assert AdmitsSetItem(skills, items[i]);
        assert items[..i] + [items[i]] == items[..i + 1];
        sets := sets[newId := sets[newId].(items := sets[newId].items + [items[i]])];
      }
      assert items[..|items|] == items;
      events := events + [Event(action, target, id, newId, 0)];
      out := Done(newId, 0);
    }

    /** The inserts and the commit, which never vetoes them. */
    method InsertValidated(newId: Uuid, items: seq<Item>, size: nat, action: Action, target: Target, id: Ident)
      returns (out: Outcome)
      requires forall k :: 0 <= k < |items| ==> AdmitsSetItem(skills, items[k])
      requires AllUsable(View(), items) && size == SizeOf(revisions, items)
      requires RowHolds(View(), SetRow(Candidate, id.actor, id.requestId, items, size, None))
      modifies this`sets, this`events
      ensures (View(), out) == InsertCandidate(old(View()), newId, items, size, action, target, id)
    {
      hide SizeOf, AllUsable, RowHolds;
      ghost var saved := View();
      out := InsertCandidateRow(newId, items, size, action, target, id);
      if out.Done? {
        UsableRowValid(saved, SetRow(Candidate, id.actor, id.requestId, items, size, None));
        ContentsAsBefore(saved, View(), SetRow(Candidate, id.actor, id.requestId, items, size, None));
        var admitted := FireDeferred(newId);
        assert admitted;
      }
    }

    /** UPDATE of a set's state. */
    method UpdateState(setId: Uuid, row: SetRow)
      requires setId in sets && GuardSetUpdate(sets[setId], row)
      modifies this`sets
      ensures sets == old(sets)[setId := row]
    {
      sets := sets[setId := row];
    }

    /** The AFTER trigger sync_current_skill_revisions: one UPDATE a skill, made as the runtime role. */
    method SyncCurrentRevisions(items: seq<Item>)
      requires forall k :: 0 <= k < |items| ==> AdmitsSetItem(skills, items[k])
      modifies this`skills
      ensures skills == SyncCurrent(old(skills), items)
    {
      for i := 0 to |items|
        invariant skills == SyncCurrent(old(skills), items[..i])
        invariant forall s :: s in old(skills) ==> s in skills && skills[s].archived == old(skills)[s].archived
      {
        assert items[..i + 1][..i] == items[..i];
        var row := skills[items[i].skill];
        assert GuardSkillUpdate(row, row.(current := items[i].revision), false, None);
        skills := skills[items[i].skill := row.(current := items[i].revision)];
      }
      assert items[..|items|] == items;
    }

    /** One firing of validate_agent_skill_set_contents; false is a RAISE. */
    method ValidateContents(setId: Uuid) returns (ok: bool)
      requires setId in sets
      modifies this`sets
      ensures ok <==> ContentsValid(old(View()), old(sets)[setId])
      ensures sets == if ok then old(sets)[setId := old(sets)[setId].(totalSize := SizeOf(revisions, old(sets)[setId].items))]
                      else old(sets)
    {
      var items := sets[setId].items;
      var joined, total, published := 0, 0, 0;
      for i := |items| downto 0
        invariant 0 <= published <= joined <= |items| - i
        invariant joined == |items| - i <==> forall k :: i <= k < |items| ==> Joined(View(), items[k])
        invariant published == |items| - i <==> forall k :: i <= k < |items| ==> Published(View(), items[k])
        invariant joined == |items| - i ==> total == SizeOf(revisions, items[i..])
      {
        assert items[i..][1..] == items[i + 1..];
        if Joined(View(), items[i]) {
          joined := joined + 1;
          total := total + revisions[items[i].revision].size;
          if Published(View(), items[i]) {
            published := published + 1;
          }
        }
      }
      assert items[0..] == items;
      if joined != |items| || joined > MAX_ITEMS || total > MAX_TOTAL_SIZE || published != joined {
        return false;
      }
      if sets[setId].state != Candidate {
        return false;
      }
      sets := sets[setId := sets[setId].(totalSize := total)];
      return true;
    }

    /** The commit of a transaction that inserted the items of a set: the trigger fires once for each of them. */
    method FireDeferred(setId: Uuid) returns (ok: bool)
      requires setId in sets && ContentsValid(View(), sets[setId])
      requires sets[setId].totalSize == SizeOf(revisions, sets[setId].items)
      modifies this`sets
      ensures ok && sets == old(sets)
    {
      hide SizeOf;
      for i := 0 to |sets[setId].items|
        invariant sets == old(sets)
      {
        ok := ValidateContents(setId);
        assert ok;
      }
      return true;
    }

    // -------------------------------------------------------------------------
    // Set functions

    /** The joined rows of the requested revisions, or None when one is not published and unarchived. */
    method SelectPublished(revisionIds: seq<Uuid>) returns (found: Option<(seq<Item>, nat)>)
      ensures found.Some? <==> forall r :: r in revisionIds ==> Usable(View(), r)
      ensures found.Some? ==> found.value == (SelectItems(View(), revisionIds), TotalSize(View(), revisionIds))
    {
      var items: seq<Item>, total := [], 0;
      for i := |revisionIds| downto 0
        invariant forall r :: r in revisionIds[i..] ==> Usable(View(), r)
        invariant items == SelectItems(View(), revisionIds[i..])
        invariant total == TotalSize(View(), revisionIds[i..])
      {
        if !Usable(View(), revisionIds[i]) {
          return None;
        }
        assert revisionIds[i..] == [revisionIds[i]] + revisionIds[i + 1..];
        items := [Item(revisions[revisionIds[i]].skill, revisionIds[i])] + items;
        total := revisions[revisionIds[i]].size + total;
      }
      assert revisionIds[0..] == revisionIds;
      return Some((items, total));
    }

    method CreateAgentSkillSet(revisionIds: seq<Uuid>, id: Ident, newId: Uuid) returns (out: Outcome)
      requires Inv(View())
      modifies this
      ensures (View(), out) == Create(old(View()), revisionIds, id, newId)
    {
      hide Inv, Admit, TotalSize, InsertCandidate;
      if |revisionIds| > MAX_ITEMS {
        return Rejected(InvalidRequest);
      }
      var admission := Lookup(CreateSet, AgentTarget, id);
      match admission
      case Replay(e) => return Done(e.resultSet, 0);
      case Clash => return Rejected(IdempotencyClash);
      case Fresh =>
      if |Candidates(sets)| >= MAX_CANDIDATES {
        return Rejected(QuotaExceeded);
      }
      if !NoRepeat(revisionIds) {
        return Rejected(InvalidRequest);
      }
      var selected := SelectPublished(revisionIds);
      if selected.None? || !SkillsDiffer(selected.value.0) || selected.value.1 > MAX_TOTAL_SIZE {
        return Rejected(InvalidRequest);
      }
      UsableItemsAdmitted(View(), selected.value.0, revisionIds);
      CreatedRowValid(View(), revisionIds, id);
      out := InsertValidated(newId, selected.value.0, selected.value.1, CreateSet, AgentTarget, id);
    }

    method DiscardAgentSkillSet(setId: Uuid, id: Ident) returns (out: Outcome)
      requires Inv(View())
      modifies this
      ensures (View(), out) == Discard(old(View()), setId, id)
    {
      hide Inv, Admit;
      var admission := Lookup(DiscardSet, SetTarget(setId), id);
      match admission
      case Replay(e) => return Done(e.resultSet, 0);
      case Clash => return Rejected(IdempotencyClash);
      case Fresh =>
      if setId !in sets {
        return Rejected(NotFound);
      }
      if sets[setId].state != Candidate {
        return Rejected(StaleState);
      }
      RowOf(View(), setId);
      UpdateState(setId, sets[setId].(state := Discarded));
      events := events + [Event(DiscardSet, SetTarget(setId), id, setId, 0)];
      return Done(setId, 0);
    }

    method ClonePreviousAgentSkillSet(expected: nat, expectedPrevious: Option<Uuid>, id: Ident, newId: Uuid)
      returns (out: Outcome)
      requires Inv(View())
      modifies this
      ensures (View(), out) == Clone(old(View()), expected, expectedPrevious, id, newId)
    {
      hide Inv, Admit, InsertCandidate, AllUsable;
      if expected == 0 {
        return Rejected(InvalidRequest);
      }
      var admission := Lookup(CloneSet, PreviousTarget, id);
      match admission
      case Replay(e) => return Done(e.resultSet, 0);
      case Clash => return Rejected(IdempotencyClash);
      case Fresh =>
      if pointer.None? || pointer.value.version != expected || pointer.value.previous != expectedPrevious {
        return Rejected(StaleState);
      }
      if pointer.value.previous.None? || pointer.value.previous.value !in sets {
        return Rejected(InvalidContent);
      }
      var source := sets[pointer.value.previous.value];
      var unusable := AnyUnusable(source.items);
      if source.state != Superseded || unusable {
        return Rejected(InvalidContent);
      }
      if |Candidates(sets)| >= MAX_CANDIDATES {
        return Rejected(QuotaExceeded);
      }
      RowOf(View(), pointer.value.previous.value);
      UsableRowAdmitted(View(), source);
      SizeOfRow(View(), pointer.value.previous.value);
      SourceRowHolds(View(), source, id);
      out := InsertValidated(newId, source.items, source.totalSize, CloneSet, PreviousTarget, id);
    }

    method ActivateAgentSkillSet(setId: Uuid, expected: nat, id: Ident, clockAdvanced: bool) returns (out: Outcome)
      requires Inv(View())
      modifies this
      ensures (View(), out) == Activate(old(View()), setId, expected, id, clockAdvanced)
    {
      hide Inv, Admit, AllUsable, SyncCurrent;
      var saved := View();
      var admission := Lookup(ActivateSet, SetTarget(setId), id);
      match admission
      case Replay(e) => return Done(setId, e.resultVersion);
      case Clash => return Rejected(IdempotencyClash);
      case Fresh =>
      var currentVersion := if pointer.Some? then pointer.value.version else 0;
      if currentVersion != expected {
        return Rejected(StaleState);
      }
      if setId !in sets || sets[setId].state != Candidate {
        return Rejected(StaleState);
      }
      var unusable := AnyUnusable(sets[setId].items);
      if unusable {
        return Rejected(InvalidContent);
      }
      RowOf(saved, setId);
      UsableRowAdmitted(saved, sets[setId]);
      PointedRow(saved);
      if pointer.Some? {
        UpdateState(pointer.value.active, sets[pointer.value.active].(state := Superseded));
      }
      // reject_archived_skill_activation looks at the skills again, now under their row locks
      assert forall k :: 0 <= k < |sets[setId].items| ==> AdmitsSetItem(skills, sets[setId].items[k]);
      UpdateState(setId, sets[setId].(state := Active));
      SyncCurrentRevisions(sets[setId].items);
      if currentVersion == 0 {
        pointer := Some(Pointer(setId, None, 1));
      } else {
        var next := Pointer(setId, Some(pointer.value.active), currentVersion + 1);
        if !GuardPointerUpdate(pointer.value, next, clockAdvanced) {
          Rollback(saved);
          return Rejected(InvalidContent);
        }
        pointer := Some(next);
      }
      events := events + [Event(ActivateSet, SetTarget(setId), id, setId, currentVersion + 1)];
      return Done(setId, currentVersion + 1);
    }

    method MarkAgentSkillSetFailed(setId: Uuid, expected: nat, id: Ident, code: string) returns (out: Outcome)
      requires Inv(View())
      modifies this
      ensures (View(), out) == MarkFailed(old(View()), setId, expected, id, code)
    {
      hide Inv, Admit;
      var admission := Lookup(FailSet, SetTarget(setId), id);
      match admission
      case Replay(e) => return Done(setId, 0);
      case Clash => return Rejected(IdempotencyClash);
      case Fresh =>
      if (if pointer.Some? then pointer.value.version else 0) != expected {
        return Rejected(StaleState);
      }
      if setId !in sets || sets[setId].state != Candidate {
        return Rejected(StaleState);
      }
      UpdateState(setId, sets[setId].(state := Failed, failureCode := Some(code)));
      events := events + [Event(FailSet, SetTarget(setId), id, setId, 0)];
      return Done(setId, 0);
    }

    // -------------------------------------------------------------------------
    // Uploads and archiving

    /** create_upload_revision. */
    method UploadRevision(c: UploadCommand) returns (out: Outcome)
      requires Inv(View())
      modifies this
      ensures (View(), out) == Upload(old(View()), c)
    {
      hide Inv, InActiveSet;
      var saved := View();
      if c.nonce in uploadNonces {
        return Rejected(AssertionReplay);
      }
      var skill: Uuid, isNew := c.newSkill, false;
      if c.target.Some? {
        if c.expectedDigest.None? {
          return Rejected(ValidationError);
        }
        skill := c.target.value;
        if skill !in skills || skills[skill].archived {
          return Rejected(SkillNotFound);
        }
        if skills[skill].slug != c.slug {
          return Rejected(NameConflict);
        }
        if !CurrentDigestIs(View(), skill, c.expectedDigest.value) {
          return Rejected(SkillChanged);
        }
      } else {
        var owners := set s | s in skills && SlugOwner(View(), c.slug, s);
        if owners == {} {
          assert forall s :: !SlugOwner(saved, c.slug, s) by {
            assert forall s :: SlugOwner(saved, c.slug, s) ==> s in owners;
          }
          if c.newSkill in skills {
            return Rejected(StorageError);
          }
          isNew := true;
          NewSkillHasNoRevision(saved, skill);
          skills := skills[skill := Skill(c.slug, false, c.newRevision)];
        } else {
          skill := OnlySlugOwner(c.slug, owners);
        }
      }
      var duplicates := set r | r in revisions && DigestOwner(View(), skill, c.digest, r);
      assert forall r :: DigestOwner(saved, skill, c.digest, r) <==> r in duplicates;
      if duplicates != {} {
        DigestsOf(saved);
        var duplicate := OnlyDigestOwner(skill, c.digest, duplicates);
        uploadNonces := uploadNonces + {c.nonce};
        return Done(duplicate, 0);
      }
      if !isNew && c.target.None? {
        return Rejected(NameConflict);
      }
      if c.newRevision in revisions {
        Rollback(saved);
        return Rejected(StorageError);
      }
      revisions := revisions[c.newRevision := Revision(skill, false, c.digest, c.size)];
      var active := ActiveRevision(skill);
      InActiveSetFrame(saved, View(), skill);
      if isNew || active.None? {
        var row := skills[skill].(current := c.newRevision);
        assert GuardSkillUpdate(skills[skill], row, true, active);
        skills := skills[skill := row];
      }
      uploadNonces := uploadNonces + {c.nonce};
      return Done(c.newRevision, 0);
    }

    method OnlySlugOwner(slug: string, owners: set<Uuid>) returns (skill: Uuid)
      requires Inv(View()) && owners != {}
      requires owners == set s | s in skills && SlugOwner(View(), slug, s)
      ensures SlugOwner(View(), slug, skill) && forall s :: SlugOwner(View(), slug, s) ==> s == skill
    {
      skill :| skill in owners;
    }

    method OnlyDigestOwner(skill: Uuid, digest: nat, owners: set<Uuid>) returns (revision: Uuid)
      requires DigestsUnique(revisions) && owners != {}
      requires owners == set r | r in revisions && DigestOwner(View(), skill, digest, r)
      ensures DigestOwner(View(), skill, digest, revision)
      ensures forall r :: DigestOwner(View(), skill, digest, r) ==> r == revision
    {
      revision :| revision in owners;
    }

    /** archive_skill; the row is locked for the whole transaction. */
    method ArchiveSkillRow(skill: Uuid, expectedDigest: nat, nonce: Uuid) returns (out: Outcome)
      requires Inv(View())
      modifies this
      ensures (View(), out) == ArchiveSkill(old(View()), skill, expectedDigest, nonce)
    {
      hide Inv, InActiveSet;
      if nonce in uploadNonces {
        return Rejected(AssertionReplay);
      }
      if skill !in skills || skills[skill].archived {
        return Rejected(SkillNotFound);
      }
      if !CurrentDigestIs(View(), skill, expectedDigest) {
        return Rejected(SkillChanged);
      }
      var active := ActiveRevision(skill);
      if active.Some? {
        return Rejected(SkillActive);
      }
      var row := skills[skill].(archived := true);
      assert GuardSkillUpdate(skills[skill], row, true, active);
      skills := skills[skill := row];
      uploadNonces := uploadNonces + {nonce};
      return Done(skill, 0);
    }

    /** UPDATE skill_revisions SET state = 'archived', with guard_revision_update and the protection trigger. */
    method ArchiveRevisionRow(revision: Uuid) returns (out: Outcome)
      modifies this
      ensures (View(), out) == ArchiveRevision(old(View()), revision)
    {
      if revision !in revisions {
        return Done(revision, 0);
      }
      if revisions[revision].archived || InActiveOrPrevious(View(), revision) {
        return Rejected(InvalidContent);
      }
      revisions := revisions[revision := revisions[revision].(archived := true)];
      return Done(revision, 0);
    }
  }

  lemma DigestsOf(d: Db)
    requires Inv(d)
    ensures DigestsUnique(d.revisions)
  {
  }

  lemma InActiveSetFrame(d: Db, d': Db, skill: Uuid)
    requires d'.pointer == d.pointer && d'.sets == d.sets
    ensures InActiveSet(d', skill) == InActiveSet(d, skill)
  {
  }
}
