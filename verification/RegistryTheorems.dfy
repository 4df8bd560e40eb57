/**
 Properties of every history of registry transactions: the pointer and its versions, the runtime
 verification query, terminal states, retries, and reinstating the previous set.
 */
module RegistryTheorems {
  import opened Common
  import opened Registry
  import opened RegistryInvariants

  ghost function After(h: seq<Mutation>): Db {
    Run(EMPTY, h)
  }

  lemma ReachableInv(h: seq<Mutation>)
    ensures Inv(After(h))
  {
    EmptyInv();
    RunKeeps(EMPTY, h);
  }

  lemma {:induction false} RunConcat(d: Db, g: seq<Mutation>, h: seq<Mutation>)
    ensures Run(d, g + h) == Run(Run(d, g), h)
    decreases |g|
  {
    if g == [] {
      assert g + h == h;
    } else {
      assert (g + h)[1..] == g[1..] + h;
      RunConcat(Apply(d, g[0]).0, g[1..], h);
    }
  }

  // ---------------------------------------------------------------------------
  // The pointer and its history

  ghost function EverActive(d: Db): set<Uuid> {
    set s | s in d.sets && (d.sets[s].state == Active || d.sets[s].state == Superseded)
  }

  lemma {:induction false} DistinctCount(h: seq<Uuid>, elements: set<Uuid>)
    requires Distinct(h) && forall s :: s in elements <==> s in h
    ensures |elements| == |h|
  {
    if h == [] {
      assert elements == {};
    } else {
      var n := |h| - 1;
      assert h == h[..n] + [h[n]];
      DistinctCount(h[..n], elements - {h[n]});
    }
  }

  ghost predicate ActivatedAt(d: Db, e: Event, version: nat) {
    e in d.events && e.action == ActivateSet && e.resultVersion == version
  }

  /** Activation versions run from 1 to n without gap or repeat, and n counts the sets ever activated. */
  lemma ActivationVersions(h: seq<Mutation>, version: nat)
    ensures Version(After(h)) == |EverActive(After(h))|
    ensures (exists e :: ActivatedAt(After(h), e, version)) <==> 1 <= version <= Version(After(h))
    ensures forall e, f :: ActivatedAt(After(h), e, version) && ActivatedAt(After(h), f, version) ==> e == f
  {
    var d := After(h);
    ReachableInv(h);
    VersionsFromHistory(d, version);
    DistinctCount(History(d), EverActive(d));
  }

  lemma VersionsFromHistory(d: Db, version: nat)
    requires PointerInv(d)
    ensures (exists e :: ActivatedAt(d, e, version)) <==> 1 <= version <= Version(d)
    ensures forall e, f :: ActivatedAt(d, e, version) && ActivatedAt(d, f, version) ==> e == f
  {
    hide StatesFollowHistory;
    ActivationsHold(d.events);
    if 1 <= version <= Version(d) {
      assert Activations(d.events)[version - 1] in Activations(d.events);
      assert ActivatedAt(d, Activations(d.events)[version - 1], version);
    }
    forall e | ActivatedAt(d, e, version)
      ensures 1 <= version <= Version(d) && e == Activations(d.events)[version - 1]
    {
      var i := ActivationInHistory(d, e);
    }
  }

  /** The pointed set is the only active one, and the pointer's previous set is superseded. */
  lemma PointerNamesActiveSet(h: seq<Mutation>)
    ensures
      var d := After(h);
      && (forall s :: s in d.sets ==>
            (d.sets[s].state == Active <==> d.pointer.Some? && d.pointer.value.active == s))
      && (d.pointer.Some? && d.pointer.value.previous.Some? ==>
            d.pointer.value.previous.value in d.sets
            && d.sets[d.pointer.value.previous.value].state == Superseded
            && d.pointer.value.previous.value != d.pointer.value.active)
      && (d.pointer.Some? ==> (d.pointer.value.previous.None? <==> d.pointer.value.version == 1))
  {
    var d := After(h);
    ReachableInv(h);
    if |History(d)| > 1 {
      assert History(d)[|History(d)| - 2] in History(d);
    }
  }

  /** The migration's runtime verification query finds nothing after any history. */
  lemma RuntimeVerificationEmpty(h: seq<Mutation>, item: Item)
    requires After(h).pointer.Some? && After(h).pointer.value.active in After(h).sets
    requires item in After(h).sets[After(h).pointer.value.active].items
    ensures
      var d := After(h);
      && item.skill in d.skills && !d.skills[item.skill].archived
      && item.revision in d.revisions && !d.revisions[item.revision].archived
      && d.revisions[item.revision].skill == item.skill
      && d.skills[item.skill].current == item.revision
  {
    var d := After(h);
    ReachableInv(h);
    var row := d.sets[d.pointer.value.active];
    assert RowHolds(d, row);
    var k :| 0 <= k < |row.items| && row.items[k] == item;
    assert ItemHolds(d, row.items[k]);
  }

  /** At most twenty sets are candidates. */
  lemma CandidateQuota(h: seq<Mutation>, candidates: set<Uuid>)
    requires forall s :: s in candidates ==> s in After(h).sets && After(h).sets[s].state == Candidate
    ensures |candidates| <= 20
  {
    ReachableInv(h);
    SubsetCount(candidates, Candidates(After(h).sets));
  }

  lemma {:induction false} SubsetCount<T>(a: set<T>, b: set<T>)
    requires a <= b
    ensures |a| <= |b|
  {
    if a != {} {
      var x :| x in a;
      SubsetCount(a - {x}, b - {x});
    }
  }

  /** Every set has at most 16 items of different skills, whose revisions sum up to its size of at most 24 MiB. */
  lemma SetLimits(h: seq<Mutation>, s: Uuid)
    requires s in After(h).sets
    ensures
      var d, row := After(h), After(h).sets[s];
      && |row.items| <= 16 && row.totalSize <= 25165824
      && row.totalSize == SizeOf(d.revisions, row.items)
      && (forall i, j :: 0 <= i < j < |row.items| ==> row.items[i].skill != row.items[j].skill)
      && (forall i :: 0 <= i < |row.items| ==>
            row.items[i].revision in d.revisions && d.revisions[row.items[i].revision].skill == row.items[i].skill)
  {
    var d := After(h);
    ReachableInv(h);
    assert RowHolds(d, d.sets[s]) && SizesInv(d);
    forall i | 0 <= i < |d.sets[s].items|
      ensures ItemHolds(d, d.sets[s].items[i])
    {
    }
    hide Inv, After;
  }

  /**
   A call is answered from an event exactly if that event has its action, target, actor, request, nonce and
   fingerprint; it is new exactly if no event has its nonce, nor its request for the same actor, action and target.
   */
  lemma AdmitExactly(d: Db, action: Action, target: Target, id: Ident, e: Event)
    requires Inv(d)
    ensures Admit(d, action, target, id) == Replay(e) <==>
            e in d.events && e.action == action && e.target == target && e.ident == id
    ensures Admit(d, action, target, id) == Fresh <==>
            forall f :: f in d.events ==>
              && f.ident.nonce != id.nonce
              && !(f.action == action && f.target == target && f.ident.actor == id.actor && f.ident.requestId == id.requestId)
  {
    hide Inv, Admit, KeysUnique;
    EventsKeyed(d);
    ReplayExactly(d, action, target, id, e);
    FreshExactly(d, action, target, id);
  }

  lemma ReplayExactly(d: Db, action: Action, target: Target, id: Ident, e: Event)
    requires KeysUnique(d.events)
    ensures Admit(d, action, target, id) == Replay(e) <==>
            e in d.events && e.action == action && e.target == target && e.ident == id
  {
    var found := FindEvent(d.events, action, target, id.actor, id.requestId);
    hide FindEvent, NonceUsed;
    if e in d.events && Matches(e, action, target, id.actor, id.requestId) {
      assert found.Some?;
      SameEvent(d.events, e, found.value, action, target, id);
    }
  }

  lemma SameEvent(events: seq<Event>, e: Event, f: Event, action: Action, target: Target, id: Ident)
    requires KeysUnique(events) && e in events && f in events
    requires Matches(e, action, target, id.actor, id.requestId) && Matches(f, action, target, id.actor, id.requestId)
    ensures e == f
  {
    var i :| 0 <= i < |events| && events[i] == e;
    var j :| 0 <= j < |events| && events[j] == f;
  }

  lemma FreshExactly(d: Db, action: Action, target: Target, id: Ident)
    ensures Admit(d, action, target, id) == Fresh <==>
            forall f :: f in d.events ==>
              && f.ident.nonce != id.nonce
              && !(f.action == action && f.target == target && f.ident.actor == id.actor && f.ident.requestId == id.requestId)
  {
    hide FindEvent;
    var found := FindEvent(d.events, action, target, id.actor, id.requestId);
    if found.Some? {
      assert found.value in d.events && Matches(found.value, action, target, id.actor, id.requestId);
    }
  }

  lemma EventsKeyed(d: Db)
    requires Inv(d)
    ensures KeysUnique(d.events)
  {
    assert EventInv(d);
  }

  /**
   A new request creates a candidate exactly if it names at most 16 different, usable revisions of different
   skills of at most 24 MiB together, there are fewer than 20 candidates, and neither the identifier nor the
   request is taken.
   */
  lemma CreateSucceedsExactly(d: Db, revisions: seq<Uuid>, id: Ident, newId: Uuid)
    requires Admit(d, CreateSet, AgentTarget, id) == Fresh
    ensures
      Create(d, revisions, id, newId).1.Done? <==>
      && |revisions| <= 16
      && |(set s | s in d.sets && d.sets[s].state == Candidate)| < 20
      && (forall i, j :: 0 <= i < j < |revisions| ==> revisions[i] != revisions[j])
      && (forall r :: r in revisions ==>
            && r in d.revisions && !d.revisions[r].archived
            && d.revisions[r].skill in d.skills && !d.skills[d.revisions[r].skill].archived)
      && (forall i, j :: 0 <= i < j < |revisions| ==> d.revisions[revisions[i]].skill != d.revisions[revisions[j]].skill)
      && TotalSize(d, revisions) <= 25165824
      && newId !in d.sets
      && forall s :: s in d.sets ==> d.sets[s].createdBy != id.actor || d.sets[s].requestId != id.requestId
    ensures Create(d, revisions, id, newId).1.Done? ==>
              var row := Create(d, revisions, id, newId).0.sets[newId];
              && row.state == Candidate && row.totalSize == TotalSize(d, revisions)
              && |row.items| == |revisions|
              && forall k :: 0 <= k < |revisions| ==> row.items[k].revision == revisions[k]
  {
    assert Candidates(d.sets) == (set s | s in d.sets && d.sets[s].state == Candidate);
    hide Admit, TotalSize, Candidates;
  }

  /** A set that left the candidate state is never activated later, and its items never change. */
  lemma OneActivationPerSet(d: Db, h: seq<Mutation>, setId: Uuid)
    requires Inv(d) && setId in d.sets && d.sets[setId].state != Candidate
    ensures setId in Run(d, h).sets && Run(d, h).sets[setId].items == d.sets[setId].items
    ensures setId in History(Run(d, h)) <==> setId in History(d)
    ensures Run(d, h).sets[setId].state == d.sets[setId].state
            || (d.sets[setId].state == Active && Run(d, h).sets[setId].state == Superseded)
  {
    RunKeeps(d, h);
  }

  /** No assertion nonce backs two events; in particular one request is never both activated and failed. */
  lemma NonceBacksOneEvent(h: seq<Mutation>, i: nat, j: nat)
    requires i < |After(h).events| && j < |After(h).events|
    requires After(h).events[i].ident.nonce == After(h).events[j].ident.nonce
    ensures i == j
  {
    ReachableInv(h);
  }

  // ---------------------------------------------------------------------------
  // Retries

  /** The same request sent twice: generated identifiers and clock readings may differ. */
  ghost predicate SameCall(m: Mutation, n: Mutation) {
    match m
    case CreateCall(revisions, id, _) => n.CreateCall? && n.revisions == revisions && n.id == id
    case CloneCall(expected, previous, id, _) =>
      n.CloneCall? && n.expected == expected && n.previous == previous && n.id == id
    case ActivateCall(setId, expected, id, _) =>
      n.ActivateCall? && n.setId == setId && n.expected == expected && n.id == id
    case UploadCall(upload) =>
      n.UploadCall? && n.upload == upload.(newSkill := n.upload.newSkill, newRevision := n.upload.newRevision)
    case _ => n == m
  }

  predicate IsSetCall(m: Mutation) {
    m.CreateCall? || m.DiscardCall? || m.CloneCall? || m.ActivateCall? || m.FailCall?
  }

  ghost function EventKey(m: Mutation): (Action, Target)
    requires IsSetCall(m)
  {
    match m
    case CreateCall(_, _, _) => (CreateSet, AgentTarget)
    case DiscardCall(setId, _) => (DiscardSet, SetTarget(setId))
    case CloneCall(_, _, _, _) => (CloneSet, PreviousTarget)
    case ActivateCall(setId, _, _, _) => (ActivateSet, SetTarget(setId))
    case FailCall(setId, _, _, _) => (FailSet, SetTarget(setId))
  }

  /** The event a call left, still there in every later database. */
  lemma AdmitsReplay(d: Db, action: Action, target: Target, id: Ident, e: Event)
    requires EventInv(d) && e in d.events && e.action == action && e.target == target && e.ident == id
    ensures Admit(d, action, target, id) == Replay(e)
  {
    var found := FindEvent(d.events, action, target, id.actor, id.requestId);
    assert Matches(e, action, target, id.actor, id.requestId);
    var i :| 0 <= i < |d.events| && d.events[i] == e;
    var j :| 0 <= j < |d.events| && d.events[j] == found.value;
    assert i == j by {
      assert SameKey(d.events[i], d.events[j]) && SameKey(d.events[j], d.events[i]);
    }
  }

  /** An effective set call records one event under its own key. */
  lemma SetCallLeavesEvent(d: Db, m: Mutation) returns (e: Event)
    requires IsSetCall(m) && Apply(d, m).0 != d
    ensures Apply(d, m).0.events == d.events + [e]
    ensures (e.action, e.target) == EventKey(m) && e.ident == m.id
    ensures Apply(d, m).1 == Done(e.resultSet, e.resultVersion)
  {
    hide Admit, AllUsable, SyncCurrent, TotalSize;
    var d' := Apply(d, m).0;
    e := d'.events[|d'.events| - 1];
  }

  lemma SetCallReplays(d: Db, m: Mutation, n: Mutation, later: Db)
    requires IsSetCall(m) && Apply(d, m).0 != d && SameCall(m, n)
    requires Inv(later) && Evolves(Apply(d, m).0, later)
    ensures Apply(later, n) == (later, Apply(d, m).1)
  {
    hide Inv, Evolves, Admit, Apply, EventHolds;
    var e := SetCallLeavesEvent(d, m);
    EventStays(Apply(d, m).0, later, e);
    AdmitsReplay(later, e.action, e.target, e.ident, e);
    LengthChecked(d, m);
    Replayed(later, n, e);
  }

  lemma EventStays(d: Db, later: Db, e: Event)
    requires Inv(later) && Evolves(d, later) && e in d.events
    ensures e in later.events && EventInv(later) && EventHolds(later.sets, e)
  {
    hide PointerInv, SetsInv, SkillsInv, RuntimeClean, PreviousKept, SizesInv, SetsEvolve, RevisionsEvolve, SkillsEvolve, History;
  }

  /** A call that finds its own event returns what the event recorded. */
  lemma Replayed(d: Db, n: Mutation, e: Event)
    requires IsSetCall(n) && Admit(d, EventKey(n).0, EventKey(n).1, n.id) == Replay(e)
    requires (e.action, e.target) == EventKey(n) && EventHolds(d.sets, e)
    requires n.CreateCall? ==> |n.revisions| <= MAX_ITEMS
    requires n.CloneCall? ==> n.expected != 0
    ensures Apply(d, n) == (d, Done(e.resultSet, e.resultVersion))
  {
    hide Admit;
  }

  /** Argument checks made before the replay lookup passed the first time. */
  lemma LengthChecked(d: Db, m: Mutation)
    requires Apply(d, m).0 != d
    ensures m.CreateCall? ==> |m.revisions| <= MAX_ITEMS
    ensures m.CloneCall? ==> m.expected != 0
  {
  }

  /**
   Once a call has changed the database, sending it again at any later time changes nothing; a set
   function also returns its first result again.
   */
  lemma RetryIsNoOp(d: Db, m: Mutation, between: seq<Mutation>, n: Mutation)
    requires Inv(d) && Apply(d, m).0 != d && SameCall(m, n)
    ensures
      var later := Run(Apply(d, m).0, between);
      && Apply(later, n).0 == later
      && (IsSetCall(m) ==> Apply(later, n).1 == Apply(d, m).1)
  {
    var d' := Apply(d, m).0;
    var later := Run(d', between);
    ApplyKeeps(d, m);
    RunKeeps(d', between);
    if IsSetCall(m) {
      SetCallReplays(d, m, n, later);
    } else {
      LibraryCallIsSpent(d, m);
      hide Inv;
      LibraryCallStaysSpent(d', later, n);
    }
  }

  /** The trace an effective upload or archive leaves: a used nonce, or an archived revision. */
  ghost predicate Spent(d: Db, m: Mutation) {
    match m
    case UploadCall(upload) => upload.nonce in d.uploadNonces
    case ArchiveSkillCall(_, _, nonce) => nonce in d.uploadNonces
    case ArchiveRevisionCall(revision) => revision in d.revisions && d.revisions[revision].archived
    case _ => false
  }

  lemma LibraryCallIsSpent(d: Db, m: Mutation)
    requires !IsSetCall(m) && Apply(d, m).0 != d
    ensures Spent(Apply(d, m).0, m)
  {
    hide InActiveSet, InActiveOrPrevious;
  }

  lemma LibraryCallStaysSpent(d: Db, later: Db, n: Mutation)
    requires Evolves(d, later) && Spent(d, n)
    ensures Apply(later, n).0 == later
  {
  }

  /** Removing a repeated call from any history leaves the final database unchanged. */
  lemma DuplicateRemovable(before: seq<Mutation>, m: Mutation, between: seq<Mutation>, n: Mutation, rest: seq<Mutation>)
    requires Apply(After(before), m).0 != After(before) && SameCall(m, n)
    ensures After(before + [m] + between + [n] + rest) == After(before + [m] + between + rest)
  {
    var d := After(before);
    ReachableInv(before);
    RetryIsNoOp(d, m, between, n);
    RunConcat(EMPTY, before, [m]);
    assert Run(d, [m]) == Run(Apply(d, m).0, []);
    RunConcat(EMPTY, before + [m], between);
    var later := After(before + [m] + between);
    RunConcat(EMPTY, before + [m] + between, [n]);
    assert Run(later, [n]) == Run(Apply(later, n).0, []);
    RunConcat(EMPTY, before + [m] + between + [n], rest);
    RunConcat(EMPTY, before + [m] + between, rest);
  }

  /** The calls of a history that changed the database. */
  ghost function Effective(d: Db, h: seq<Mutation>): seq<Mutation>
    decreases |h|
  {
    if h == [] then []
    else if Apply(d, h[0]).0 == d then Effective(d, h[1..])
    else [h[0]] + Effective(Apply(d, h[0]).0, h[1..])
  }

  /** They alone reach the same database, and no request is among them twice. */
  lemma {:induction false} EffectiveCallsSuffice(d: Db, h: seq<Mutation>)
    requires Inv(d)
    ensures Run(d, Effective(d, h)) == Run(d, h)
    ensures forall i, j :: 0 <= i < j < |Effective(d, h)| ==> !SameCall(Effective(d, h)[i], Effective(d, h)[j])
    decreases |h|
  {
    hide Inv, SameCall, Apply, Evolves;
    if h != [] {
      var d' := Apply(d, h[0]).0;
      ApplyKeeps(d, h[0]);
      EffectiveCallsSuffice(d', h[1..]);
      if d' != d {
        var rest := Effective(d', h[1..]);
        assert Effective(d, h)[1..] == rest;
        forall j | 0 <= j < |rest|
          ensures !SameCall(h[0], rest[j])
        {
          if SameCall(h[0], rest[j]) {
            var between := EffectiveAt(d', h[1..], j);
            RetryIsNoOp(d, h[0], between, rest[j]);
          }
        }
      }
    }
  }

  /** Each effective call changes the database reached by the calls before it. */
  lemma {:induction false} EffectiveAt(d: Db, h: seq<Mutation>, j: nat) returns (between: seq<Mutation>)
    requires j < |Effective(d, h)|
    ensures Apply(Run(d, between), Effective(d, h)[j]).0 != Run(d, between)
    decreases |h|
  {
    hide Apply;
    var d' := Apply(d, h[0]).0;
    if d' == d {
      between := EffectiveAt(d, h[1..], j);
    } else if j == 0 {
      between := [];
    } else {
      var tail := EffectiveAt(d', h[1..], j - 1);
      between := [h[0]] + tail;
      assert between[1..] == tail;
    }
  }

  /** A call that was rejected first may succeed when repeated: the retry then is not a duplicate. */
  lemma RejectedCallMayRunLater()
    ensures
      var a, b := Ident(1, 2, 3, Hash([])), Ident(1, 4, 5, Hash([]));
      var early := DiscardCall(9, a);
      var create := CreateCall([], b, 9);
      && Apply(EMPTY, early) == (EMPTY, Rejected(NotFound))
      && After([early, create, early]) != After([early, create])
  {
    var a, b := Ident(1, 2, 3, Hash([])), Ident(1, 4, 5, Hash([]));
    var early := DiscardCall(9, a);
    var create := CreateCall([], b, 9);
    TooEarly(early);
    var d := Created(create);
    RunsNow(d, early);
    hide Apply;
    RunConcat(EMPTY, [early], [create]);
    RunConcat(EMPTY, [early, create], [early]);
    assert [early] + [create] == [early, create] && [early, create] + [early] == [early, create, early];
    RunOne(EMPTY, early);
    RunOne(EMPTY, create);
    RunOne(d, early);
  }

  lemma TooEarly(early: Mutation)
    requires early == DiscardCall(9, Ident(1, 2, 3, Hash([])))
    ensures Apply(EMPTY, early) == (EMPTY, Rejected(NotFound))
  {
  }

  lemma Created(create: Mutation) returns (d: Db)
    requires create == CreateCall([], Ident(1, 4, 5, Hash([])), 9)
    ensures d == Apply(EMPTY, create).0 && 9 in d.sets && d.sets[9].state == Candidate
    ensures d.events == [Event(CreateSet, AgentTarget, Ident(1, 4, 5, Hash([])), 9, 0)]
  {
    assert Candidates(EMPTY.sets) == {};
    hide Candidates;
    d := Apply(EMPTY, create).0;
  }

  lemma RunsNow(d: Db, early: Mutation)
    requires 9 in d.sets && d.sets[9].state == Candidate
    requires d.events == [Event(CreateSet, AgentTarget, Ident(1, 4, 5, Hash([])), 9, 0)]
    requires early == DiscardCall(9, Ident(1, 2, 3, Hash([])))
    ensures Apply(d, early).0 != d
  {
    assert Apply(d, early).0.sets[9].state == Discarded;
  }

  lemma RunOne(d: Db, m: Mutation)
    ensures Run(d, [m]) == Apply(d, m).0
  {
    hide Apply;
    assert Run(Apply(d, m).0, [m][1..]) == Apply(d, m).0;
  }

  // ---------------------------------------------------------------------------
  // Reinstating the previous set

  /** A clone of the previous set, activated later, brings back exactly its ordered revisions. */
  lemma CloneThenActivate(
    d: Db, expected: nat, previous: Uuid, id: Ident, newId: Uuid,
    between: seq<Mutation>, later: Db, id2: Ident, clockAdvanced: bool)
    requires Inv(d) && previous in d.sets
    requires Clone(d, expected, Some(previous), id, newId).0 != d
    requires later == Run(Clone(d, expected, Some(previous), id, newId).0, between)
    requires Activate(later, newId, Version(later), id2, clockAdvanced).0 != later
    ensures d.pointer.Some? && d.pointer.value.previous == Some(previous)
    ensures
      var final := Activate(later, newId, Version(later), id2, clockAdvanced).0;
      && final.pointer.Some? && final.pointer.value.active == newId
      && newId in final.sets && final.sets[newId].items == d.sets[previous].items
      && final.sets[newId].state == Active
  {
    var cloned := Clone(d, expected, Some(previous), id, newId).0;
    CloneKeeps(d, expected, Some(previous), id, newId);
    RunKeeps(cloned, between);
    ClonedItems(d, expected, previous, id, newId);
    hide Inv;
    ActivatedRow(later, newId, Version(later), id2, clockAdvanced);
  }

  lemma ActivatedRow(d: Db, setId: Uuid, expected: nat, id: Ident, clockAdvanced: bool)
    requires Activate(d, setId, expected, id, clockAdvanced).0 != d
    ensures
      var final := Activate(d, setId, expected, id, clockAdvanced).0;
      && setId in d.sets && final.pointer.Some? && final.pointer.value.active == setId
      && setId in final.sets && final.sets[setId] == d.sets[setId].(state := Active)
  {
    hide AllUsable, SyncCurrent, Admit;
  }

  lemma ClonedItems(d: Db, expected: nat, previous: Uuid, id: Ident, newId: Uuid)
    requires previous in d.sets && Clone(d, expected, Some(previous), id, newId).0 != d
    ensures
      var cloned := Clone(d, expected, Some(previous), id, newId).0;
      newId in cloned.sets && cloned.sets[newId].items == d.sets[previous].items
    ensures d.pointer.Some? && d.pointer.value.previous == Some(previous)
  {
  }
}
