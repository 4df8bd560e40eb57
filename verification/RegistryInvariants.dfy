/**
 What every transaction of the skill registry keeps, and how a database may change over any history.
 The centre is the activation history: the sets named by the activation events, in order.  The
 pointer, the versions and the states of all activated sets are functions of it.
 */
module RegistryInvariants {
  import opened Common
  import opened Registry

  ghost function Activations(events: seq<Event>): seq<Event> {
    if events == [] then []
    else
      var last := events[|events| - 1];
      Activations(events[..|events| - 1]) + (if last.action == ActivateSet then [last] else [])
  }

  /** The sets ever activated, oldest first. */
  ghost function History(d: Db): (h: seq<Uuid>)
    ensures |h| == |Activations(d.events)|
  {
    seq(|Activations(d.events)|, i requires 0 <= i < |Activations(d.events)| => Activations(d.events)[i].resultSet)
  }

  ghost function PointerOf(h: seq<Uuid>): Option<Pointer> {
    if h == [] then None
    else Some(Pointer(h[|h| - 1], if |h| == 1 then None else Some(h[|h| - 2]), |h|))
  }

  // ---------------------------------------------------------------------------
  // The invariant

  ghost predicate StatesFollowHistory(sets: map<Uuid, SetRow>, h: seq<Uuid>) {
    && (forall i :: 0 <= i < |h| ==> h[i] in sets)
    && (forall s :: s in sets ==> (s in h <==> sets[s].state == Active || sets[s].state == Superseded))
    && (forall s :: s in sets ==> (sets[s].state == Active <==> h != [] && s == h[|h| - 1]))
  }

  ghost predicate PointerInv(d: Db) {
    && Distinct(History(d))
    && (forall i :: 0 <= i < |History(d)| ==> Activations(d.events)[i].resultVersion == i + 1)
    && d.pointer == PointerOf(History(d))
    && StatesFollowHistory(d.sets, History(d))
  }

  ghost predicate NoncesUnique(events: seq<Event>) {
    forall i, j :: 0 <= i < j < |events| ==> events[i].ident.nonce != events[j].ident.nonce
  }

  ghost predicate SameKey(e: Event, f: Event) {
    Matches(e, f.action, f.target, f.ident.actor, f.ident.requestId)
  }

  ghost predicate KeysUnique(events: seq<Event>) {
    forall i, j :: 0 <= i < j < |events| ==> !SameKey(events[i], events[j])
  }

  /** What an event says about the set it names. */
  ghost predicate EventHolds(sets: map<Uuid, SetRow>, e: Event) {
    && e.resultSet in sets
    && (e.action == ActivateSet || e.action == FailSet || e.action == DiscardSet ==> e.target == SetTarget(e.resultSet))
    && (e.action == CreateSet ==> e.target == AgentTarget)
    && (e.action == CloneSet ==> e.target == PreviousTarget)
    && (e.action == FailSet ==> sets[e.resultSet].state == Failed)
    && (e.action == DiscardSet ==> sets[e.resultSet].state == Discarded)
    && (e.action != ActivateSet ==> e.resultVersion == 0)
  }

  ghost predicate EventInv(d: Db) {
    && NoncesUnique(d.events)
    && KeysUnique(d.events)
    && (forall e :: e in d.events ==> EventHolds(d.sets, e))
  }

  ghost predicate ItemHolds(d: Db, item: Item) {
    && item.skill in d.skills
    && item.revision in d.revisions
    && d.revisions[item.revision].skill == item.skill
  }

  ghost predicate RowHolds(d: Db, row: SetRow) {
    && |row.items| <= MAX_ITEMS
    && row.totalSize <= MAX_TOTAL_SIZE
    && SkillsDiffer(row.items)
    && (row.failureCode.Some? <==> row.state == Failed)
    && (forall k :: 0 <= k < |row.items| ==> ItemHolds(d, row.items[k]))
  }

  ghost predicate SetsInv(d: Db) {
    && (forall s :: s in d.sets ==> RowHolds(d, d.sets[s]))
    && (forall s, t :: s in d.sets && t in d.sets && s != t ==>
          d.sets[s].createdBy != d.sets[t].createdBy || d.sets[s].requestId != d.sets[t].requestId)
  }

  /** The summed size of the items' revisions. */
  ghost function SizeOf(revisions: map<Uuid, Revision>, items: seq<Item>): nat {
    if items == [] then 0
    else (if items[0].revision in revisions then revisions[items[0].revision].size else 0) + SizeOf(revisions, items[1..])
  }

  /** The stored totals are those of the items. */
  ghost predicate SizesInv(d: Db) {
    forall s :: s in d.sets ==> d.sets[s].totalSize == SizeOf(d.revisions, d.sets[s].items)
  }

  ghost predicate OwnersHold(d: Db) {
    && (forall r :: r in d.revisions ==> d.revisions[r].skill in d.skills)
    && (forall s :: s in d.skills ==> d.skills[s].current in d.revisions && d.revisions[d.skills[s].current].skill == s)
  }

  /** The partial unique index on the slugs of unarchived skills. */
  ghost predicate SlugsUnique(skills: map<Uuid, Skill>) {
    forall s, t :: s in skills && t in skills && s != t && !skills[s].archived && !skills[t].archived ==>
      skills[s].slug != skills[t].slug
  }

  /** The unique pair of skill and artifact digest. */
  ghost predicate DigestsUnique(revisions: map<Uuid, Revision>) {
    forall r, q :: r in revisions && q in revisions && r != q && revisions[r].skill == revisions[q].skill ==>
      revisions[r].digest != revisions[q].digest
  }

  ghost predicate SkillsInv(d: Db) {
    OwnersHold(d) && SlugsUnique(d.skills) && DigestsUnique(d.revisions)
  }

  /** The row VERIFY_RUNTIME_DATA_INVARIANTS_SQL would report. */
  ghost predicate Violation(d: Db, item: Item)
    requires ItemHolds(d, item)
  {
    || d.skills[item.skill].archived
    || d.revisions[item.revision].archived
    || d.skills[item.skill].current != item.revision
  }

  /** That query returns no row. */
  ghost predicate RuntimeClean(d: Db)
    requires SetsInv(d)
  {
    d.pointer.Some? && d.pointer.value.active in d.sets ==>
      forall k :: 0 <= k < |d.sets[d.pointer.value.active].items| ==> !Violation(d, d.sets[d.pointer.value.active].items[k])
  }

  /** No revision of the previous set is archived, so it stays cloneable as far as revisions go. */
  ghost predicate PreviousKept(d: Db)
    requires SetsInv(d)
  {
    d.pointer.Some? && d.pointer.value.previous.Some? && d.pointer.value.previous.value in d.sets ==>
      forall k :: 0 <= k < |d.sets[d.pointer.value.previous.value].items| ==>
        !d.revisions[d.sets[d.pointer.value.previous.value].items[k].revision].archived
  }

  ghost predicate Inv(d: Db) {
    (
      && PointerInv(d)
      && EventInv(d)
      && SetsInv(d)
      && SkillsInv(d)
      && RuntimeClean(d)
      && PreviousKept(d)
      && SizesInv(d)
      && |Candidates(d.sets)| <= MAX_CANDIDATES
    ) == true
  }

  // ---------------------------------------------------------------------------
  // How databases evolve

  predicate StateMayBecome(a: SetState, b: SetState) {
    a == b || a == Candidate || (a == Active && b == Superseded)
  }

  ghost predicate SetsEvolve(a: map<Uuid, SetRow>, b: map<Uuid, SetRow>) {
    forall s :: s in a ==> s in b && SameContent(a[s], b[s]) && StateMayBecome(a[s].state, b[s].state)
  }

  /** The columns of a set that never change. */
  predicate SameContent(a: SetRow, b: SetRow) {
    b.createdBy == a.createdBy && b.requestId == a.requestId && b.items == a.items && b.totalSize == a.totalSize
  }

  ghost predicate Evolves(a: Db, b: Db) {
    && IsPrefix(a.events, b.events)
    && IsPrefix(History(a), History(b))
    && SetsEvolve(a.sets, b.sets)
    && a.uploadNonces <= b.uploadNonces
    && RevisionsEvolve(a.revisions, b.revisions)
    && SkillsEvolve(a, b)
  }

  ghost predicate RevisionsEvolve(a: map<Uuid, Revision>, b: map<Uuid, Revision>) {
    forall r :: r in a ==>
      r in b && b[r] == a[r].(archived := b[r].archived) && (a[r].archived ==> b[r].archived)
  }

  /** Skills keep their slug, stay archived, and never move to a revision that was archived already. */
  ghost predicate SkillsEvolve(a: Db, b: Db) {
    forall s :: s in a.skills ==>
      && s in b.skills && b.skills[s].slug == a.skills[s].slug && (a.skills[s].archived ==> b.skills[s].archived)
      && (b.skills[s].current == a.skills[s].current || Unarchived(a.revisions, b.skills[s].current))
  }

  predicate Unarchived(revisions: map<Uuid, Revision>, r: Uuid) {
    r in revisions ==> !revisions[r].archived
  }

  lemma EvolvesReflexive(d: Db)
    ensures Evolves(d, d)
  {
  }

  lemma EvolvesTransitive(a: Db, b: Db, c: Db)
    requires Evolves(a, b) && Evolves(b, c)
    ensures Evolves(a, c)
  {
  }

  // ---------------------------------------------------------------------------
  // Steps that leave the activation history alone

  lemma ActivationsAppend(events: seq<Event>, e: Event)
    ensures Activations(events + [e]) == Activations(events) + (if e.action == ActivateSet then [e] else [])
  {
    assert (events + [e])[..|events|] == events;
  }

  lemma ActivationsHold(events: seq<Event>)
    ensures forall e :: e in Activations(events) <==> e in events && e.action == ActivateSet
  {
    if events != [] {
      var n := |events| - 1;
      ActivationsHold(events[..n]);
      assert events == events[..n] + [events[n]];
    }
  }

  /** An activation event names a set of the history. */
  lemma ActivationInHistory(d: Db, e: Event) returns (i: nat)
    requires e in d.events && e.action == ActivateSet
    ensures i < |History(d)| && Activations(d.events)[i] == e && History(d)[i] == e.resultSet
  {
    ActivationsHold(d.events);
    assert e in Activations(d.events);
    i :| 0 <= i < |Activations(d.events)| && Activations(d.events)[i] == e;
  }

  /** A call that passed admission brings an event with an unused key and nonce. */
  lemma FreshEvent(d: Db, e: Event)
    requires EventInv(d) && Admit(d, e.action, e.target, e.ident) == Fresh
    ensures NoncesUnique(d.events + [e]) && KeysUnique(d.events + [e])
  {
    var es := d.events + [e];
    forall i, j | 0 <= i < j < |es|
      ensures es[i].ident.nonce != es[j].ident.nonce && !SameKey(es[i], es[j])
    {
      assert es[i] in d.events;
    }
  }

  ghost predicate UpdatesCandidate(d: Db, setId: Uuid, row: SetRow)
    requires setId in d.sets
  {
    && d.sets[setId].state == Candidate
    && row == d.sets[setId].(state := row.state, failureCode := row.failureCode)
    && (row.failureCode.Some? <==> row.state == Failed)
  }

  ghost predicate InsertsCandidate(d: Db, row: SetRow) {
    && row.state == Candidate
    && RowHolds(d, row)
    && row.totalSize == SizeOf(d.revisions, row.items)
    && !RequestTaken(d, row.createdBy, row.requestId)
    && |Candidates(d.sets)| < MAX_CANDIDATES
  }

  /** The shape shared by a new candidate, a discard and a failure: one row written, one event added. */
  ghost predicate WritesOneRow(d: Db, d': Db, setId: Uuid, row: SetRow, e: Event) {
    && d' == d.(sets := d.sets[setId := row], events := d.events + [e])
    && e.action != ActivateSet
    && Admit(d, e.action, e.target, e.ident) == Fresh
    && row.state != Active && row.state != Superseded
    && (if setId in d.sets then UpdatesCandidate(d, setId, row) else InsertsCandidate(d, row))
    && e.resultSet == setId
    && EventHolds(d'.sets, e)
  }

  lemma OneRowKeepsCandidateCount(sets: map<Uuid, SetRow>, setId: Uuid, row: SetRow)
    requires |Candidates(sets)| <= MAX_CANDIDATES
    requires setId !in sets ==> |Candidates(sets)| < MAX_CANDIDATES
    requires setId in sets ==> sets[setId].state == Candidate
    ensures |Candidates(sets[setId := row])| <= MAX_CANDIDATES
  {
    var a, b := Candidates(sets), Candidates(sets[setId := row]);
    assert b <= a + {setId};
    Subset(b, a + {setId});
  }

  lemma Subset(a: set<Uuid>, b: set<Uuid>)
    requires a <= b
    ensures |a| <= |b|
  {
    assert b == a + (b - a);
  }

  lemma {:induction false} SizeKept(a: map<Uuid, Revision>, b: map<Uuid, Revision>, items: seq<Item>)
    requires RevisionsEvolve(a, b) && forall k :: 0 <= k < |items| ==> items[k].revision in a
    ensures SizeOf(b, items) == SizeOf(a, items)
  {
    if items != [] {
      SizeKept(a, b, items[1..]);
    }
  }

  /** Sets keep their content and revisions their sizes, so the totals stay right. */
  lemma SizesKept(d: Db, d': Db)
    requires SizesInv(d) && SetsInv(d) && RevisionsEvolve(d.revisions, d'.revisions)
    requires forall s :: s in d'.sets ==>
               if s in d.sets then SameContent(d.sets[s], d'.sets[s])
               else d'.sets[s].totalSize == SizeOf(d'.revisions, d'.sets[s].items)
    ensures SizesInv(d')
  {
    hide SetsInv, RevisionsEvolve, SizeOf;
    forall s | s in d'.sets && s in d.sets
      ensures d'.sets[s].totalSize == SizeOf(d'.revisions, d'.sets[s].items)
    {
      ItemsExist(d, s);
      SizeKept(d.revisions, d'.revisions, d.sets[s].items);
    }
  }

  lemma ItemsExist(d: Db, s: Uuid)
    requires SetsInv(d) && s in d.sets
    ensures forall k :: 0 <= k < |d.sets[s].items| ==> d.sets[s].items[k].revision in d.revisions
  {
    assert RowHolds(d, d.sets[s]);
    forall k | 0 <= k < |d.sets[s].items|
      ensures d.sets[s].items[k].revision in d.revisions
    {
      assert ItemHolds(d, d.sets[s].items[k]);
    }
  }

  lemma OneRowKeepsSizes(d: Db, d': Db, setId: Uuid, row: SetRow, e: Event)
    requires SizesInv(d) && SetsInv(d) && WritesOneRow(d, d', setId, row, e)
    ensures SizesInv(d')
  {
    hide SizesInv, SetsInv, SizeOf, RowHolds, Admit, EventHolds;
    SizesKept(d, d');
  }

  lemma OneRowKeepsInv(d: Db, d': Db, setId: Uuid, row: SetRow, e: Event)
    requires Inv(d) && WritesOneRow(d, d', setId, row, e)
    ensures Inv(d') && Evolves(d, d') && History(d') == History(d)
  {
    hide EventInv, SetsInv, RuntimeClean, PreviousKept, StatesFollowHistory, Candidates, Evolves, SizesInv;
    OneRowKeepsSizes(d, d', setId, row, e);
    HistoryKept(d, d', e);
    CandidateNotInHistory(d, setId);
    OneRowKeepsStates(d.sets, History(d), setId, row);
    OneRowKeepsCandidateCount(d.sets, setId, row);
    OneRowKeepsEvents(d, d', setId, row, e);
    OneRowKeepsSets(d, d', setId, row, e);
    PointedRowsKept(d, d', setId, row);
    OneRowEvolves(d, d', setId, row, e);
  }

  lemma OneRowEvolves(d: Db, d': Db, setId: Uuid, row: SetRow, e: Event)
    requires WritesOneRow(d, d', setId, row, e) && History(d') == History(d)
    ensures Evolves(d, d')
  {
    hide History, Admit, EventHolds, InsertsCandidate;
  }

  lemma HistoryKept(d: Db, d': Db, e: Event)
    requires d'.events == d.events + [e] && e.action != ActivateSet
    ensures Activations(d'.events) == Activations(d.events) && History(d') == History(d)
  {
    ActivationsAppend(d.events, e);
  }

  lemma CandidateNotInHistory(d: Db, setId: Uuid)
    requires PointerInv(d)
    requires setId in d.sets ==> d.sets[setId].state != Active && d.sets[setId].state != Superseded
    ensures setId !in History(d)
    ensures d.pointer.Some? ==>
              d.pointer.value.active in d.sets && d.pointer.value.active in History(d)
    ensures d.pointer.Some? && d.pointer.value.previous.Some? ==>
              d.pointer.value.previous.value in d.sets && d.pointer.value.previous.value in History(d)
  {
    var h := History(d);
    assert forall i :: 0 <= i < |h| ==> h[i] in d.sets;
  }

  lemma OneRowKeepsStates(sets: map<Uuid, SetRow>, h: seq<Uuid>, setId: Uuid, row: SetRow)
    requires StatesFollowHistory(sets, h) && setId !in h
    requires row.state != Active && row.state != Superseded
    ensures StatesFollowHistory(sets[setId := row], h)
  {
  }

  lemma PointedRowsKept(d: Db, d': Db, setId: Uuid, row: SetRow)
    requires PointerInv(d) && SetsInv(d) && SetsInv(d') && RuntimeClean(d) && PreviousKept(d)
    requires d'.sets == d.sets[setId := row] && setId !in History(d)
    requires d'.skills == d.skills && d'.revisions == d.revisions && d'.pointer == d.pointer
    ensures RuntimeClean(d') && PreviousKept(d')
  {
    if d.pointer.Some? {
      var p := d.pointer.value;
      assert p.active in History(d);
      assert d'.sets[p.active] == d.sets[p.active];
      if p.previous.Some? {
        assert p.previous.value in History(d);
        assert d'.sets[p.previous.value] == d.sets[p.previous.value];
      }
    }
  }

  lemma OneRowKeepsEvents(d: Db, d': Db, setId: Uuid, row: SetRow, e: Event)
    requires Inv(d) && WritesOneRow(d, d', setId, row, e)
    ensures EventInv(d')
  {
    FreshEvent(d, e);
    forall f | f in d'.events
      ensures EventHolds(d'.sets, f)
    {
      if f in d.events {
        assert EventHolds(d.sets, f);
      }
    }
  }

  lemma OneRowKeepsSets(d: Db, d': Db, setId: Uuid, row: SetRow, e: Event)
    requires Inv(d) && WritesOneRow(d, d', setId, row, e)
    ensures SetsInv(d') && SkillsInv(d')
  {
    forall s | s in d'.sets
      ensures RowHolds(d', d'.sets[s])
    {
      var before := if s == setId && s !in d.sets then row else d.sets[s];
      assert RowHolds(d, before);
      forall k | 0 <= k < |before.items|
        ensures ItemHolds(d', before.items[k])
      {
        assert ItemHolds(d, before.items[k]);
      }
    }
  }

  // ---------------------------------------------------------------------------
  // One transaction at a time

  ghost predicate Keeps(d: Db, d': Db) {
    Inv(d') && Evolves(d, d')
  }

  lemma InsertKeeps(d: Db, newId: Uuid, items: seq<Item>, size: nat, action: Action, target: Target, id: Ident)
    requires Inv(d) && Admit(d, action, target, id) == Fresh
    requires RowHolds(d, SetRow(Candidate, id.actor, id.requestId, items, size, None))
    requires size == SizeOf(d.revisions, items)
    requires |Candidates(d.sets)| < MAX_CANDIDATES
    requires (action == CreateSet && target == AgentTarget) || (action == CloneSet && target == PreviousTarget)
    ensures
      var d' := InsertCandidate(d, newId, items, size, action, target, id).0;
      Keeps(d, d') && History(d') == History(d)
  {
    hide Inv, Evolves, RowHolds, SizeOf, Admit, Candidates, History;
    var row := SetRow(Candidate, id.actor, id.requestId, items, size, None);
    if newId !in d.sets && !RequestTaken(d, id.actor, id.requestId) {
      var d' := InsertCandidate(d, newId, items, size, action, target, id).0;
      OneRowKeepsInv(d, d', newId, row, Event(action, target, id, newId, 0));
    } else {
      EvolvesReflexive(d);
    }
  }

  lemma SelectedItemsHold(d: Db, revisions: seq<Uuid>)
    requires forall r :: r in revisions ==> Usable(d, r)
    ensures forall r :: r in revisions ==> r in d.revisions
    ensures forall k :: 0 <= k < |revisions| ==> ItemHolds(d, SelectItems(d, revisions)[k])
  {
    assert forall k :: 0 <= k < |revisions| ==> Usable(d, revisions[k]);
  }

  lemma {:induction false} SelectedSize(d: Db, revisions: seq<Uuid>)
    requires forall r :: r in revisions ==> r in d.revisions
    ensures TotalSize(d, revisions) == SizeOf(d.revisions, SelectItems(d, revisions))
  {
    if revisions != [] {
      SelectedSize(d, revisions[1..]);
    }
  }

  lemma CreateKeeps(d: Db, revisions: seq<Uuid>, id: Ident, newId: Uuid)
    requires Inv(d)
    ensures var d' := Create(d, revisions, id, newId).0; Keeps(d, d') && History(d') == History(d)
  {
    hide Inv, Admit, TotalSize, InsertCandidate, Candidates;
    if |revisions| <= MAX_ITEMS && Admit(d, CreateSet, AgentTarget, id) == Fresh
      && |Candidates(d.sets)| < MAX_CANDIDATES && NoRepeat(revisions)
      && forall r :: r in revisions ==> Usable(d, r)
    {
      var items := SelectItems(d, revisions);
      if SkillsDiffer(items) && TotalSize(d, revisions) <= MAX_TOTAL_SIZE {
        SelectedItemsHold(d, revisions);
        SelectedSize(d, revisions);
        InsertKeeps(d, newId, items, TotalSize(d, revisions), CreateSet, AgentTarget, id);
      }
    }
  }

  lemma SourceRowHolds(d: Db, source: SetRow, id: Ident)
    requires RowHolds(d, source) && source.state != Failed
    ensures RowHolds(d, SetRow(Candidate, id.actor, id.requestId, source.items, source.totalSize, None))
  {
  }

  lemma RowOf(d: Db, setId: Uuid)
    requires Inv(d) && setId in d.sets
    ensures RowHolds(d, d.sets[setId])
  {
  }

  lemma SizeOfRow(d: Db, setId: Uuid)
    requires Inv(d) && setId in d.sets
    ensures d.sets[setId].totalSize == SizeOf(d.revisions, d.sets[setId].items)
  {
  }

  lemma CloneKeeps(d: Db, expected: nat, previous: Option<Uuid>, id: Ident, newId: Uuid)
    requires Inv(d)
    ensures var d' := Clone(d, expected, previous, id, newId).0; Keeps(d, d') && History(d') == History(d)
  {
    hide Inv, RowHolds, Admit, InsertCandidate, Candidates;
    if expected > 0 && Admit(d, CloneSet, PreviousTarget, id) == Fresh && d.pointer.Some?
      && previous.Some? && previous.value in d.sets && d.sets[previous.value].state == Superseded
      && |Candidates(d.sets)| < MAX_CANDIDATES
    {
      var source := d.sets[previous.value];
      RowOf(d, previous.value);
      SizeOfRow(d, previous.value);
      SourceRowHolds(d, source, id);
      InsertKeeps(d, newId, source.items, source.totalSize, CloneSet, PreviousTarget, id);
    }
  }

  lemma DiscardKeeps(d: Db, setId: Uuid, id: Ident)
    requires Inv(d)
    ensures var d' := Discard(d, setId, id).0; Keeps(d, d') && History(d') == History(d)
  {
    hide Inv;
    if Admit(d, DiscardSet, SetTarget(setId), id) == Fresh && setId in d.sets && d.sets[setId].state == Candidate {
      RowOf(d, setId);
      OneRowKeepsInv(d, Discard(d, setId, id).0, setId, d.sets[setId].(state := Discarded),
                     Event(DiscardSet, SetTarget(setId), id, setId, 0));
    }
  }

  lemma MarkFailedKeeps(d: Db, setId: Uuid, expected: nat, id: Ident, code: string)
    requires Inv(d)
    ensures var d' := MarkFailed(d, setId, expected, id, code).0; Keeps(d, d') && History(d') == History(d)
  {
    hide Inv;
    if Admit(d, FailSet, SetTarget(setId), id) == Fresh && Version(d) == expected
      && setId in d.sets && d.sets[setId].state == Candidate
    {
      OneRowKeepsInv(d, MarkFailed(d, setId, expected, id, code).0, setId,
                     d.sets[setId].(state := Failed, failureCode := Some(code)),
                     Event(FailSet, SetTarget(setId), id, setId, 0));
    }
  }

  // ---------------------------------------------------------------------------
  // Activation

  /** An activation that passes every check, field by field. */
  ghost predicate Activates(d: Db, d': Db, setId: Uuid, id: Ident) {
    && Admit(d, ActivateSet, SetTarget(setId), id) == Fresh
    && setId in d.sets && d.sets[setId].state == Candidate
    && AllUsable(d, d.sets[setId].items)
    && (d.pointer.Some? ==> PointedSetIsActive(d))
    && d'.sets == SupersedePointed(d)[setId := d.sets[setId].(state := Active)]
    && d'.pointer == Some(Pointer(setId, if d.pointer.Some? then Some(d.pointer.value.active) else None, Version(d) + 1))
    && d'.events == d.events + [Event(ActivateSet, SetTarget(setId), id, setId, Version(d) + 1)]
    && d'.skills == SyncCurrent(d.skills, d.sets[setId].items)
    && d'.revisions == d.revisions
    && d'.uploadNonces == d.uploadNonces
  }

  ghost function SupersedePointed(d: Db): map<Uuid, SetRow> {
    if PointedSetIsActive(d)
    then d.sets[d.pointer.value.active := d.sets[d.pointer.value.active].(state := Superseded)]
    else d.sets
  }

  lemma {:induction false} SyncOnlyCurrent(skills: map<Uuid, Skill>, items: seq<Item>)
    ensures forall s :: s in skills ==>
              SyncCurrent(skills, items)[s] == skills[s].(current := SyncCurrent(skills, items)[s].current)
  {
    if items != [] {
      SyncOnlyCurrent(skills, items[..|items| - 1]);
    }
  }

  lemma {:induction false} SyncSpares(skills: map<Uuid, Skill>, items: seq<Item>, s: Uuid)
    requires s in skills && !HasSkill(items, s)
    ensures SyncCurrent(skills, items)[s] == skills[s]
  {
    if items != [] {
      var n := |items| - 1;
      assert items[n].skill != s && forall k :: 0 <= k < n ==> items[..n][k] == items[k];
      SyncSpares(skills, items[..n], s);
    }
  }

  lemma {:induction false} SyncsItem(skills: map<Uuid, Skill>, items: seq<Item>, k: nat)
    requires SkillsDiffer(items) && k < |items| && items[k].skill in skills
    ensures SyncCurrent(skills, items)[items[k].skill].current == items[k].revision
  {
    var n := |items| - 1;
    if k < n {
      assert items[n].skill != items[k].skill && items[..n][k] == items[k];
      SyncsItem(skills, items[..n], k);
    }
  }

  /** The trigger makes each item's revision current and changes nothing else. */
  lemma {:induction false} SyncCurrentAt(skills: map<Uuid, Skill>, items: seq<Item>)
    requires SkillsDiffer(items) && forall k :: 0 <= k < |items| ==> items[k].skill in skills
    ensures forall k :: 0 <= k < |items| ==> SyncCurrent(skills, items)[items[k].skill].current == items[k].revision
    ensures forall s :: s in skills && !HasSkill(items, s) ==> SyncCurrent(skills, items)[s] == skills[s]
    ensures forall s :: s in skills ==>
              SyncCurrent(skills, items)[s] == skills[s].(current := SyncCurrent(skills, items)[s].current)
  {
    hide SyncCurrent, HasSkill;
    forall k | 0 <= k < |items|
      ensures SyncCurrent(skills, items)[items[k].skill].current == items[k].revision
    {
      SyncsItem(skills, items, k);
    }
    forall s | s in skills && !HasSkill(items, s)
      ensures SyncCurrent(skills, items)[s] == skills[s]
    {
      SyncSpares(skills, items, s);
    }
    SyncOnlyCurrent(skills, items);
  }

  lemma ActivateHistory(d: Db, d': Db, setId: Uuid, id: Ident)
    requires PointerInv(d) && Activates(d, d', setId, id)
    ensures History(d') == History(d) + [setId] && Version(d) == |History(d)| && setId !in History(d)
    ensures PointerInv(d') && SetsEvolve(d.sets, d'.sets)
  {
    hide Activates, History, SetsEvolve, StatesFollowHistory;
    var e := Event(ActivateSet, SetTarget(setId), id, setId, Version(d) + 1);
    ActivatedSets(d, d', setId, id);
    HistoryAppend(d, d', e);
    CandidateNotInHistory(d, setId);
    ActivateStates(d.sets, d'.sets, History(d), setId);
    PointerExtends(d, d', e);
  }

  /** The new rows and pointer in terms of the activation history. */
  lemma ActivatedSets(d: Db, d': Db, setId: Uuid, id: Ident)
    requires PointerInv(d) && Activates(d, d', setId, id)
    ensures setId in d.sets && d.sets[setId].state == Candidate && Version(d) == |History(d)|
    ensures
      var h := History(d);
      && (h != [] ==> h[|h| - 1] in d.sets)
      && d'.sets == (if h == [] then d.sets else d.sets[h[|h| - 1] := d.sets[h[|h| - 1]].(state := Superseded)])
                    [setId := d.sets[setId].(state := Active)]
    ensures d'.pointer == PointerOf(History(d) + [setId])
    ensures d'.events == d.events + [Event(ActivateSet, SetTarget(setId), id, setId, Version(d) + 1)]
  {
    hide Admit, AllUsable, SyncCurrent, History;
  }

  lemma PointerExtends(d: Db, d': Db, e: Event)
    requires PointerInv(d) && d'.events == d.events + [e] && e.action == ActivateSet
    requires e.resultVersion == |History(d)| + 1 && e.resultSet !in History(d)
    requires d'.pointer == PointerOf(History(d) + [e.resultSet])
    requires StatesFollowHistory(d'.sets, History(d) + [e.resultSet])
    ensures PointerInv(d')
  {
    hide StatesFollowHistory;
    HistoryAppend(d, d', e);
  }

  lemma ActivateEvolves(d: Db, d': Db, setId: Uuid, id: Ident)
    requires Inv(d) && Activates(d, d', setId, id) && SetsEvolve(d.sets, d'.sets) && History(d') == History(d) + [setId]
    ensures Evolves(d, d')
  {
    hide Admit, SetsEvolve, SkillsEvolve, Inv;
    RowOf(d, setId);
    ActivateSkillsEvolve(d, d', d.sets[setId].items);
    hide AllUsable;
  }

  lemma ActivateSkillsEvolve(d: Db, d': Db, items: seq<Item>)
    requires SkillsDiffer(items) && AllUsable(d, items) && forall k :: 0 <= k < |items| ==> ItemHolds(d, items[k])
    requires d'.skills == SyncCurrent(d.skills, items)
    ensures SkillsEvolve(d, d')
  {
    SyncCurrentAt(d.skills, items);
    forall s | s in d.skills
      ensures d'.skills[s].current == d.skills[s].current || Unarchived(d.revisions, d'.skills[s].current)
    {
      if HasSkill(items, s) {
        var k :| 0 <= k < |items| && items[k].skill == s;
        assert Usable(d, items[k].revision);
      }
    }
  }

  lemma HistoryAppend(d: Db, d': Db, e: Event)
    requires d'.events == d.events + [e] && e.action == ActivateSet
    ensures History(d') == History(d) + [e.resultSet] && Activations(d'.events) == Activations(d.events) + [e]
  {
    ActivationsAppend(d.events, e);
  }

  lemma ActivateStates(sets: map<Uuid, SetRow>, sets': map<Uuid, SetRow>, h: seq<Uuid>, setId: Uuid)
    requires StatesFollowHistory(sets, h) && Distinct(h)
    requires setId in sets && setId !in h && sets[setId].state == Candidate
    requires
      var retired := if h == [] then sets else sets[h[|h| - 1] := sets[h[|h| - 1]].(state := Superseded)];
      sets' == retired[setId := sets[setId].(state := Active)]
    ensures StatesFollowHistory(sets', h + [setId]) && SetsEvolve(sets, sets')
  {
    if h != [] {
      assert h[|h| - 1] in h;
    }
  }

  lemma ActivateEvents(d: Db, d': Db, setId: Uuid, id: Ident)
    requires Inv(d) && Activates(d, d', setId, id)
    ensures EventInv(d')
  {
    var e := Event(ActivateSet, SetTarget(setId), id, setId, Version(d) + 1);
    FreshEvent(d, e);
    forall f | f in d'.events
      ensures EventHolds(d'.sets, f)
    {
      if f in d.events {
        assert EventHolds(d.sets, f);
      }
    }
  }

  lemma ItemsKept(d: Db, d': Db)
    requires SetsInv(d) && d'.revisions == d.revisions && d'.skills.Keys == d.skills.Keys
    requires d'.sets.Keys == d.sets.Keys
    requires forall s :: s in d'.sets ==> d'.sets[s] == d.sets[s].(state := d'.sets[s].state)
    requires forall s :: s in d'.sets ==> (d'.sets[s].state == Failed <==> d.sets[s].state == Failed)
    ensures SetsInv(d')
  {
    forall s | s in d'.sets
      ensures RowHolds(d', d'.sets[s])
    {
      assert RowHolds(d, d.sets[s]);
      forall k | 0 <= k < |d.sets[s].items|
        ensures ItemHolds(d', d.sets[s].items[k])
      {
        assert ItemHolds(d, d.sets[s].items[k]);
      }
    }
  }

  lemma SyncKeepsSkills(d: Db, d': Db, items: seq<Item>)
    requires SkillsInv(d) && SkillsDiffer(items) && forall k :: 0 <= k < |items| ==> ItemHolds(d, items[k])
    requires d'.skills == SyncCurrent(d.skills, items) && d'.revisions == d.revisions
    ensures SkillsInv(d')
  {
    SyncCurrentAt(d.skills, items);
    forall s | s in d'.skills
      ensures d'.skills[s].current in d'.revisions && d'.revisions[d'.skills[s].current].skill == s
    {
      if HasSkill(items, s) {
        var k :| 0 <= k < |items| && items[k].skill == s;
        assert ItemHolds(d, items[k]);
      }
    }
  }

  /** The items just made current raise no row of the runtime verification query. */
  lemma SyncedItemsClean(d: Db, d': Db, items: seq<Item>)
    requires SkillsDiffer(items) && AllUsable(d, items) && forall k :: 0 <= k < |items| ==> ItemHolds(d, items[k])
    requires d'.skills == SyncCurrent(d.skills, items) && d'.revisions == d.revisions
    ensures forall k :: 0 <= k < |items| ==> ItemHolds(d', items[k]) && !Violation(d', items[k])
  {
    SyncCurrentAt(d.skills, items);
    forall k | 0 <= k < |items|
      ensures ItemHolds(d', items[k]) && !Violation(d', items[k])
    {
      assert Usable(d, items[k].revision) && ItemHolds(d, items[k]);
    }
  }

  lemma ActivateContents(d: Db, d': Db, setId: Uuid, id: Ident)
    requires Inv(d) && Activates(d, d', setId, id)
    ensures SetsInv(d') && SkillsInv(d') && RuntimeClean(d') && PreviousKept(d')
  {
    hide Inv, Activates, RuntimeClean, PreviousKept, SkillsInv;
    ActivateRows(d, d', setId, id);
    ActivateClean(d, d', setId, id);
    ActivatePrevious(d, d', setId, id);
  }

  lemma ActivateRows(d: Db, d': Db, setId: Uuid, id: Ident)
    requires Inv(d) && Activates(d, d', setId, id)
    ensures SetsInv(d') && SkillsInv(d')
  {
    hide Admit, AllUsable, PointerInv, EventInv, SkillsInv, RuntimeClean, PreviousKept, SetsInv;
    assert SetsInv(d) && SkillsInv(d);
    hide Inv;
    RowOf(d, setId);
    ItemsKept(d, d');
    SyncKeepsSkills(d, d', d.sets[setId].items);
  }

  lemma ActivateClean(d: Db, d': Db, setId: Uuid, id: Ident)
    requires Inv(d) && Activates(d, d', setId, id) && SetsInv(d')
    ensures RuntimeClean(d')
  {
    hide Admit, Inv, SetsInv, Violation;
    RowOf(d, setId);
    SyncedItemsClean(d, d', d.sets[setId].items);
  }

  /** The set that was active becomes the previous one; its revisions were published. */
  lemma ActivatePrevious(d: Db, d': Db, setId: Uuid, id: Ident)
    requires Inv(d) && Activates(d, d', setId, id) && SetsInv(d')
    ensures PreviousKept(d')
  {
    if d.pointer.Some? {
      var p := d.pointer.value.active;
      CandidateNotInHistory(d, setId);
      assert d'.sets[p].items == d.sets[p].items;
      forall k | 0 <= k < |d.sets[p].items|
        ensures !d.revisions[d.sets[p].items[k].revision].archived
      {
        assert RowHolds(d, d.sets[p]);
        assert !Violation(d, d.sets[p].items[k]);
      }
    }
  }

  lemma ActivateKeeps(d: Db, setId: Uuid, expected: nat, id: Ident, clockAdvanced: bool)
    requires Inv(d)
    ensures
      var (d', out) := Activate(d, setId, expected, id, clockAdvanced);
      && Keeps(d, d')
      && (d' != d ==> out == Done(setId, expected + 1) && History(d') == History(d) + [setId] && |History(d)| == expected)
  {
    var d' := Activate(d, setId, expected, id, clockAdvanced).0;
    hide PointerInv, EventInv, SetsInv, SkillsInv, RuntimeClean, PreviousKept, SizesInv, Admit, AllUsable, SyncCurrent;
    if d' != d {
      assert Activates(d, d', setId, id);
      hide Activates, Activate, Evolves;
      ActivateSizes(d, d', setId, id);
      ActivateHistory(d, d', setId, id);
      ActivateEvolves(d, d', setId, id);
      ActivateEvents(d, d', setId, id);
      ActivateContents(d, d', setId, id);
      FewerCandidates(d, d', setId, id);
    }
  }

  lemma ActivateSizes(d: Db, d': Db, setId: Uuid, id: Ident)
    requires Inv(d) && Activates(d, d', setId, id)
    ensures SizesInv(d')
  {
    hide Inv, SizesInv, SetsInv, SizeOf, Admit, AllUsable, SyncCurrent, RevisionsEvolve;
    SizesOf(d);
    RevisionsStay(d.revisions);
    SizesKept(d, d');
  }

  lemma RevisionsStay(revisions: map<Uuid, Revision>)
    ensures RevisionsEvolve(revisions, revisions)
  {
  }

  lemma SizesOf(d: Db)
    requires Inv(d)
    ensures SizesInv(d) && SetsInv(d)
  {
    hide SizesInv, SetsInv;
  }

  lemma FewerCandidates(d: Db, d': Db, setId: Uuid, id: Ident)
    requires Activates(d, d', setId, id)
    ensures |Candidates(d'.sets)| <= |Candidates(d.sets)|
  {
    hide AllUsable, Admit, SyncCurrent;
    assert Candidates(d'.sets) <= Candidates(d.sets);
    Subset(Candidates(d'.sets), Candidates(d.sets));
  }

  // ---------------------------------------------------------------------------
  // Uploads and archiving leave sets, pointer and events alone

  ghost predicate SameSets(d: Db, d': Db) {
    d'.sets == d.sets && d'.pointer == d.pointer && d'.events == d.events
  }

  /** What an upload or an archive may do to the library of skills. */
  ghost predicate LibraryGrows(d: Db, d': Db) {
    && SkillsEvolve(d, d')
    && d.uploadNonces <= d'.uploadNonces
    && RevisionsEvolve(d.revisions, d'.revisions)
  }

  lemma LibraryKeepsSets(d: Db, d': Db)
    requires SetsInv(d) && SameSets(d, d') && LibraryGrows(d, d')
    ensures SetsInv(d')
  {
    forall s | s in d'.sets
      ensures RowHolds(d', d'.sets[s])
    {
      assert RowHolds(d, d.sets[s]);
      forall k | 0 <= k < |d.sets[s].items|
        ensures ItemHolds(d', d.sets[s].items[k])
      {
        assert ItemHolds(d, d.sets[s].items[k]);
      }
    }
  }

  lemma LibraryKeepsSizes(d: Db, d': Db)
    requires Inv(d) && SameSets(d, d') && LibraryGrows(d, d')
    ensures SizesInv(d')
  {
    hide Inv, SizesInv, SetsInv, SizeOf, RevisionsEvolve, SkillsEvolve;
    SizesOf(d);
    SizesKept(d, d');
  }

  /** No row of the active or previous set is touched. */
  ghost predicate SparesActive(d: Db, d': Db)
    requires LibraryGrows(d, d')
  {
    && (forall s :: s in d.skills && InActiveSet(d, s) ==> d'.skills[s] == d.skills[s])
    && (forall r :: r in d.revisions && InActiveOrPrevious(d, r) ==> d'.revisions[r] == d.revisions[r])
  }

  lemma LibraryKeepsInv(d: Db, d': Db)
    requires Inv(d) && SameSets(d, d') && LibraryGrows(d, d') && SkillsInv(d') && SparesActive(d, d')
    ensures Keeps(d, d') && History(d') == History(d)
  {
    LibraryKeepsSizes(d, d');
    LibraryKeepsSets(d, d');
    LibraryKeepsActive(d, d');
    LibraryKeepsPointer(d, d');
  }

  lemma LibraryKeepsPointer(d: Db, d': Db)
    requires PointerInv(d) && EventInv(d) && SameSets(d, d') && LibraryGrows(d, d')
    ensures PointerInv(d') && EventInv(d') && History(d') == History(d) && Evolves(d, d')
  {
  }

  lemma LibraryKeepsActive(d: Db, d': Db)
    requires SetsInv(d) && SetsInv(d') && RuntimeClean(d) && PreviousKept(d)
    requires SameSets(d, d') && LibraryGrows(d, d') && SparesActive(d, d')
    ensures RuntimeClean(d') && PreviousKept(d')
  {
    if d.pointer.Some? && d.pointer.value.active in d.sets {
      var items := d.sets[d.pointer.value.active].items;
      forall k | 0 <= k < |items|
        ensures !Violation(d', items[k])
      {
        assert ItemHolds(d, items[k]) && HasSkill(items, items[k].skill) && HasRevision(items, items[k].revision);
        assert !Violation(d, items[k]);
      }
    }
    if d.pointer.Some? && d.pointer.value.previous.Some? && d.pointer.value.previous.value in d.sets {
      var items := d.sets[d.pointer.value.previous.value].items;
      forall k | 0 <= k < |items|
        ensures !d'.revisions[items[k].revision].archived
      {
        assert ItemHolds(d, items[k]) && HasRevision(items, items[k].revision);
      }
    }
  }

  /** A new published revision, and perhaps a new skill to own it. */
  ghost predicate AddsRevision(d: Db, d': Db, c: UploadCommand, skill: Uuid, isNew: bool) {
    && c.newRevision !in d.revisions
    && d'.uploadNonces == d.uploadNonces + {c.nonce}
    && (forall r :: !DigestOwner(d, skill, c.digest, r))
    && d'.revisions == d.revisions[c.newRevision := Revision(skill, false, c.digest, c.size)]
    && (isNew ==> skill !in d.skills && d'.skills == d.skills[skill := Skill(c.slug, false, c.newRevision)]
                  && forall s :: !SlugOwner(d, c.slug, s))
    && (!isNew ==> skill in d.skills
                   && d'.skills == if InActiveSet(d, skill) then d.skills
                                   else d.skills[skill := d.skills[skill].(current := c.newRevision)])
  }

  lemma AddingKeepsDigests(revisions: map<Uuid, Revision>, newRevision: Uuid, row: Revision)
    requires DigestsUnique(revisions)
    requires forall r :: r in revisions && revisions[r].skill == row.skill ==> revisions[r].digest != row.digest
    ensures DigestsUnique(revisions[newRevision := row])
  {
  }

  lemma AddingKeepsSlugs(skills: map<Uuid, Skill>, skill: Uuid, row: Skill)
    requires SlugsUnique(skills)
    requires forall s :: s in skills && s != skill && !skills[s].archived ==> row.archived || skills[s].slug != row.slug
    ensures SlugsUnique(skills[skill := row])
  {
  }

  lemma AddingKeepsOwners(d: Db, d': Db, c: UploadCommand, skill: Uuid, isNew: bool)
    requires OwnersHold(d) && AddsRevision(d, d', c, skill, isNew)
    ensures OwnersHold(d') && LibraryGrows(d, d')
  {
    hide AddsRevision, InActiveSet, OwnersHold;
    AddedRows(d, d', c, skill, isNew);
    OwnersGrow(d, d', skill, c.newRevision);
  }

  lemma AddedRows(d: Db, d': Db, c: UploadCommand, skill: Uuid, isNew: bool)
    requires AddsRevision(d, d', c, skill, isNew)
    ensures c.newRevision !in d.revisions && d.uploadNonces <= d'.uploadNonces
    ensures d'.revisions == d.revisions[c.newRevision := Revision(skill, false, c.digest, c.size)]
    ensures d'.skills == d.skills
            || (skill in d'.skills && d'.skills[skill].current == c.newRevision
                && d'.skills == d.skills[skill := d'.skills[skill]])
    ensures skill in d'.skills
    ensures skill in d.skills ==> d'.skills[skill] == d.skills[skill].(current := d'.skills[skill].current)
  {
    hide InActiveSet, DigestOwner, SlugOwner;
  }

  /** One more revision of a skill, perhaps its current one. */
  lemma OwnersGrow(d: Db, d': Db, skill: Uuid, revision: Uuid)
    requires OwnersHold(d) && revision !in d.revisions && skill in d'.skills && d.uploadNonces <= d'.uploadNonces
    requires revision in d'.revisions && d'.revisions[revision].skill == skill
    requires d'.revisions == d.revisions[revision := d'.revisions[revision]]
    requires d'.skills == d.skills
             || (d'.skills[skill].current == revision && d'.skills == d.skills[skill := d'.skills[skill]])
    requires skill in d.skills ==> d'.skills[skill] == d.skills[skill].(current := d'.skills[skill].current)
    ensures OwnersHold(d') && LibraryGrows(d, d')
  {
  }

  lemma NoSuchDigest(d: Db, skill: Uuid, digest: nat)
    requires forall r :: !DigestOwner(d, skill, digest, r)
    ensures forall r :: r in d.revisions && d.revisions[r].skill == skill ==> d.revisions[r].digest != digest
  {
    forall r | r in d.revisions && d.revisions[r].skill == skill
      ensures d.revisions[r].digest != digest
    {
      assert !DigestOwner(d, skill, digest, r);
    }
  }

  lemma NoSuchSlug(d: Db, slug: string)
    requires forall s :: !SlugOwner(d, slug, s)
    ensures forall s :: s in d.skills && !d.skills[s].archived ==> d.skills[s].slug != slug
  {
    forall s | s in d.skills && !d.skills[s].archived
      ensures d.skills[s].slug != slug
    {
      assert !SlugOwner(d, slug, s);
    }
  }

  lemma AddingKeepsSkills(d: Db, d': Db, c: UploadCommand, skill: Uuid, isNew: bool)
    requires SkillsInv(d) && AddsRevision(d, d', c, skill, isNew)
    ensures SkillsInv(d') && LibraryGrows(d, d')
  {
    AddingKeepsOwners(d, d', c, skill, isNew);
    NoSuchDigest(d, skill, c.digest);
    hide InActiveSet, DigestOwner, OwnersHold, LibraryGrows;
    AddingKeepsDigests(d.revisions, c.newRevision, Revision(skill, false, c.digest, c.size));
    hide DigestsUnique;
    if isNew {
      NoSuchSlug(d, c.slug);
      AddingKeepsSlugs(d.skills, skill, Skill(c.slug, false, c.newRevision));
    } else {
      AddingKeepsSlugs(d.skills, skill, d.skills[skill].(current := c.newRevision));
    }
  }

  lemma AddingSparesActive(d: Db, d': Db, c: UploadCommand, skill: Uuid, isNew: bool)
    requires Inv(d) && AddsRevision(d, d', c, skill, isNew) && LibraryGrows(d, d')
    ensures SparesActive(d, d')
  {
    hide Inv, InActiveSet, InActiveOrPrevious, SetsInv, DigestOwner;
    if isNew {
      NewSkillNotActive(d, skill);
    }
  }

  lemma AddRevisionKeeps(d: Db, base: Db, c: UploadCommand, skill: Uuid, isNew: bool)
    requires Inv(d)
    requires skill in base.skills && base == d.(skills := base.skills)
    requires AddsRevision(d, AddRevision(base, c, skill, isNew).0, c, skill, isNew)
    ensures var d' := AddRevision(base, c, skill, isNew).0; Keeps(d, d') && History(d') == History(d)
  {
    hide PointerInv, EventInv, SetsInv, SkillsInv, RuntimeClean, PreviousKept, SizesInv, AddsRevision;
    var d' := AddRevision(base, c, skill, isNew).0;
    AddingKeepsSkills(d, d', c, skill, isNew);
    AddingSparesActive(d, d', c, skill, isNew);
    hide SparesActive, LibraryGrows;
    LibraryKeepsInv(d, d');
  }

  lemma NewSkillNotActive(d: Db, skill: Uuid)
    requires Inv(d) && skill !in d.skills
    ensures !InActiveSet(d, skill)
  {
    if d.pointer.Some? && d.pointer.value.active in d.sets {
      var row := d.sets[d.pointer.value.active];
      assert RowHolds(d, row);
      forall k | 0 <= k < |row.items|
        ensures row.items[k].skill != skill
      {
        assert ItemHolds(d, row.items[k]);
      }
    }
  }

  lemma UploadKeeps(d: Db, c: UploadCommand)
    requires Inv(d)
    ensures var d' := Upload(d, c).0; Keeps(d, d') && History(d') == History(d)
  {
    hide Inv, AddRevision, Keeps, InActiveSet;
    var d' := Upload(d, c).0;
    if SameSets(d, d') && d'.skills == d.skills && d'.revisions == d.revisions && d.uploadNonces <= d'.uploadNonces {
      OnlyNonces(d, d');
    } else if c.target.Some? {
      UploadAdds(d, d, c, c.target.value, false);
      AddRevisionKeeps(d, d, c, c.target.value, false);
    } else {
      NewSkillHasNoRevision(d, c.newSkill);
      var base := d.(skills := d.skills[c.newSkill := Skill(c.slug, false, c.newRevision)]);
      UploadAdds(d, base, c, c.newSkill, true);
      AddRevisionKeeps(d, base, c, c.newSkill, true);
    }
  }

  lemma UploadAdds(d: Db, base: Db, c: UploadCommand, skill: Uuid, isNew: bool)
    requires c.newRevision !in d.revisions && forall r :: !DigestOwner(d, skill, c.digest, r)
    requires isNew ==> skill !in d.skills && forall s :: !SlugOwner(d, c.slug, s)
    requires isNew ==> base == d.(skills := d.skills[skill := Skill(c.slug, false, c.newRevision)])
    requires !isNew ==> skill in d.skills && base == d
    ensures AddsRevision(d, AddRevision(base, c, skill, isNew).0, c, skill, isNew)
  {
    hide InActiveSet;
  }

  lemma OnlyNonces(d: Db, d': Db)
    requires Inv(d) && SameSets(d, d') && d'.skills == d.skills && d'.revisions == d.revisions
    requires d.uploadNonces <= d'.uploadNonces
    ensures Keeps(d, d') && History(d') == History(d)
  {
    assert SkillsInv(d');
    LibraryKeepsInv(d, d');
  }

  lemma NewSkillHasNoRevision(d: Db, skill: Uuid)
    requires Inv(d) && skill !in d.skills
    ensures forall r, digest :: !DigestOwner(d, skill, digest, r)
  {
  }

  /** Archiving flags only rise, and nothing else of the library changes. */
  ghost predicate OnlyArchives(d: Db, d': Db) {
    && d'.skills.Keys == d.skills.Keys
    && d'.revisions.Keys == d.revisions.Keys
    && (forall s :: s in d.skills ==>
          d'.skills[s] == d.skills[s].(archived := d'.skills[s].archived) && (d.skills[s].archived ==> d'.skills[s].archived))
    && (forall r :: r in d.revisions ==>
          d'.revisions[r] == d.revisions[r].(archived := d'.revisions[r].archived)
          && (d.revisions[r].archived ==> d'.revisions[r].archived))
    && d.uploadNonces <= d'.uploadNonces
  }

  lemma ArchivingKeepsSkills(d: Db, d': Db)
    requires Inv(d) && OnlyArchives(d, d')
    ensures SkillsInv(d') && LibraryGrows(d, d')
  {
  }

  lemma ArchiveSkillKeeps(d: Db, skill: Uuid, digest: nat, nonce: Uuid)
    requires Inv(d)
    ensures var d' := ArchiveSkill(d, skill, digest, nonce).0; Keeps(d, d') && History(d') == History(d)
  {
    hide Inv, SkillsInv;
    var d' := ArchiveSkill(d, skill, digest, nonce).0;
    ArchivingKeepsSkills(d, d');
    LibraryKeepsInv(d, d');
  }

  lemma ArchiveRevisionKeeps(d: Db, revision: Uuid)
    requires Inv(d)
    ensures var d' := ArchiveRevision(d, revision).0; Keeps(d, d') && History(d') == History(d)
  {
    hide Inv, SkillsInv;
    var d' := ArchiveRevision(d, revision).0;
    ArchivingKeepsSkills(d, d');
    LibraryKeepsInv(d, d');
  }

  // ---------------------------------------------------------------------------
  // Every history

  lemma ApplyKeeps(d: Db, m: Mutation)
    requires Inv(d)
    ensures Keeps(d, Apply(d, m).0)
  {
    hide Inv, Evolves;
    match m
    case CreateCall(revisions, id, newId) => CreateKeeps(d, revisions, id, newId);
    case DiscardCall(setId, id) => DiscardKeeps(d, setId, id);
    case CloneCall(expected, previous, id, newId) => CloneKeeps(d, expected, previous, id, newId);
    case ActivateCall(setId, expected, id, clockAdvanced) => ActivateKeeps(d, setId, expected, id, clockAdvanced);
    case FailCall(setId, expected, id, code) => MarkFailedKeeps(d, setId, expected, id, code);
    case UploadCall(upload) => UploadKeeps(d, upload);
    case ArchiveSkillCall(skill, digest, nonce) => ArchiveSkillKeeps(d, skill, digest, nonce);
    case ArchiveRevisionCall(revision) => ArchiveRevisionKeeps(d, revision);
  }

  lemma EmptyInv()
    ensures Inv(EMPTY)
  {
  }

  lemma {:induction false} RunKeeps(d: Db, h: seq<Mutation>)
    requires Inv(d)
    ensures Keeps(d, Run(d, h))
    decreases |h|
  {
    hide Inv, Evolves, Apply;
    if h == [] {
      EvolvesReflexive(d);
    } else {
      var next := Apply(d, h[0]).0;
      ApplyKeeps(d, h[0]);
      RunKeeps(next, h[1..]);
      EvolvesTransitive(d, next, Run(d, h));
    }
  }
}
