/**
 The other half: for every rejected request that may still run, a history of other calls after which a
 repetition of it does change the database.
 */
module RetryContinuations {
  import opened Common
  import opened Registry
  import opened RegistryInvariants
  import opened RegistryTheorems
  import opened RetryConditions

  // ---------------------------------------------------------------------------
  // Unused identifiers

  /** The request that waits to be repeated: its identity as a set call, or its nonce as an upload or archive. */
  datatype Pending = Pending(id: Ident, nonce: Uuid)

  lemma {:induction false} Unused(xs: set<nat>) returns (x: nat)
    ensures x !in xs && forall y :: y in xs ==> y < x
    decreases |xs|
  {
    if xs == {} {
      x := 0;
    } else {
      var y :| y in xs;
      var z := Unused(xs - {y});
      x := if y < z then z else y + 1;
      assert forall w :: w in xs ==> w == y || w in xs - {y};
    }
  }

  /** An identity no event, no set and not the pending request uses. */
  ghost predicate UnusedIdent(d: Db, p: Pending, id: Ident) {
    && id.requestId != p.id.requestId && id.nonce != p.id.nonce
    && (forall e :: e in d.events ==> e.ident.requestId != id.requestId && e.ident.nonce != id.nonce)
    && (forall s :: s in d.sets ==> d.sets[s].requestId != id.requestId)
  }

  lemma SomeIdent(d: Db, p: Pending) returns (id: Ident)
    ensures UnusedIdent(d, p, id)
  {
    var requests := (set e | e in d.events :: e.ident.requestId) + (set s | s in d.sets :: d.sets[s].requestId) + {p.id.requestId};
    var nonces := (set e | e in d.events :: e.ident.nonce) + {p.id.nonce};
    var r := Unused(requests);
    var n := Unused(nonces);
    id := Ident(0, r, n, Hash([]));
    forall s | s in d.sets
      ensures d.sets[s].requestId != r
    {
      assert d.sets[s].requestId in requests;
    }
    forall e | e in d.events
      ensures e.ident.requestId != r && e.ident.nonce != n
    {
      assert e.ident.requestId in requests && e.ident.nonce in nonces;
    }
  }

  lemma UnusedIsFresh(d: Db, p: Pending, id: Ident, action: Action, target: Target)
    requires UnusedIdent(d, p, id)
    ensures Admit(d, action, target, id) == Fresh && !RequestTaken(d, id.actor, id.requestId)
  {
  }

  // ---------------------------------------------------------------------------
  // What the continuations leave to the pending request

  /** The pending request stays unseen, its nonces unused. */
  ghost predicate Spares(d: Db, d': Db, p: Pending) {
    && (forall action, target :: Admit(d, action, target, p.id) == Fresh ==> Admit(d', action, target, p.id) == Fresh)
    && (RequestTaken(d', p.id.actor, p.id.requestId) ==> RequestTaken(d, p.id.actor, p.id.requestId))
    && (p.nonce in d'.uploadNonces ==> p.nonce in d.uploadNonces)
  }

  predicate SameLibrary(d: Db, d': Db) {
    d'.skills == d.skills && d'.revisions == d.revisions && d'.uploadNonces == d.uploadNonces
  }

  /** The set is left alone unless it was the active one. */
  predicate LeavesSet(d: Db, d': Db, keep: Uuid) {
    && (keep !in d.sets ==> keep !in d'.sets)
    && (keep in d.sets && d.sets[keep].state != Active ==> keep in d'.sets && d'.sets[keep] == d.sets[keep])
  }

  /** A history leads from one database to another and spares the pending request. */
  ghost predicate Leads(d: Db, h: seq<Mutation>, d': Db, p: Pending) {
    Run(d, h) == d' && Spares(d, d', p) && Inv(d') && Evolves(d, d')
  }

  lemma StartsHere(d: Db, p: Pending)
    requires Inv(d)
    ensures Leads(d, [], d, p)
  {
    hide Inv, Evolves;
    EvolvesReflexive(d);
  }

  lemma LeadsOn(d: Db, g: seq<Mutation>, e: Db, h: seq<Mutation>, f: Db, p: Pending)
    requires Leads(d, g, e, p) && Leads(e, h, f, p)
    ensures Leads(d, g + h, f, p)
  {
    hide Inv, Evolves, Run, Admit, RequestTaken;
    RunConcat(d, g, h);
    EvolvesTransitive(d, e, f);
  }

  lemma OneCall(d: Db, x: Mutation, d': Db, p: Pending)
    requires Inv(d) && Apply(d, x).0 == d' && Spares(d, d', p)
    ensures Leads(d, [x], d', p)
  {
    hide Inv, Evolves, Apply, Spares;
    RunOne(d, x);
    ApplyKeeps(d, x);
  }

  /** One event under an unused identity, and perhaps one set created under it, spare the pending request. */
  lemma EventSpares(d: Db, d': Db, p: Pending, e: Event)
    requires d'.events == d.events + [e] && d'.uploadNonces == d.uploadNonces
    requires e.ident.requestId != p.id.requestId && e.ident.nonce != p.id.nonce
    requires forall s :: s in d'.sets ==>
               (if s in d.sets then SameContent(d.sets[s], d'.sets[s]) else d'.sets[s].requestId == e.ident.requestId)
    ensures Spares(d, d', p)
  {
    forall action, target | Admit(d, action, target, p.id) == Fresh
      ensures Admit(d', action, target, p.id) == Fresh
    {
    }
  }

  // ---------------------------------------------------------------------------
  // Room for a candidate

  lemma Discards(d: Db, c: Uuid, p: Pending) returns (x: Mutation, d': Db)
    requires Inv(d) && c in d.sets && d.sets[c].state == Candidate
    ensures Leads(d, [x], d', p)
    ensures d'.sets == d.sets[c := d.sets[c].(state := Discarded)]
    ensures d'.pointer == d.pointer && SameLibrary(d, d')
  {
    hide Inv, Admit, Spares, Evolves, UnusedIdent;
    var id := SomeIdent(d, p);
    x := DiscardCall(c, id);
    UnusedIsFresh(d, p, id, DiscardSet, SetTarget(c));
    d' := Apply(d, x).0;
    assert id.requestId != p.id.requestId && id.nonce != p.id.nonce by { OtherIdent(d, p, id); }
    EventSpares(d, d', p, Event(DiscardSet, SetTarget(c), id, c, 0));
    OneCall(d, x, d', p);
  }

  lemma OtherIdent(d: Db, p: Pending, id: Ident)
    requires UnusedIdent(d, p, id)
    ensures id.requestId != p.id.requestId && id.nonce != p.id.nonce
  {
  }

  /** Discarding some other candidate where the quota is full. */
  lemma MakeRoom(d: Db, keep: Uuid, p: Pending) returns (h: seq<Mutation>, d': Db)
    requires Inv(d)
    ensures Leads(d, h, d', p) && |Candidates(d'.sets)| < MAX_CANDIDATES
    ensures d'.sets.Keys == d.sets.Keys && d'.pointer == d.pointer && SameLibrary(d, d') && LeavesSet(d, d', keep)
    ensures forall s :: s in d.sets && d.sets[s].state != Candidate ==> d'.sets[s] == d.sets[s]
  {
    assert |Candidates(d.sets)| <= MAX_CANDIDATES;
    hide Inv, Leads;
    if |Candidates(d.sets)| < MAX_CANDIDATES {
      h, d' := [], d;
      StartsHere(d, p);
    } else {
      var c := OtherCandidate(d.sets, keep);
      var x;
      x, d' := Discards(d, c, p);
      h := [x];
      OneLess(d.sets, c, d'.sets);
    }
  }

  lemma OtherCandidate(sets: map<Uuid, SetRow>, keep: Uuid) returns (c: Uuid)
    requires |Candidates(sets)| >= MAX_CANDIDATES
    ensures c in sets && sets[c].state == Candidate && c != keep
  {
    var cs := Candidates(sets);
    if cs - {keep} == {} {
      Subset(cs, {keep});
    }
    c :| c in cs - {keep};
  }

  lemma OneLess(sets: map<Uuid, SetRow>, c: Uuid, after: map<Uuid, SetRow>)
    requires |Candidates(sets)| <= MAX_CANDIDATES && c in sets && sets[c].state == Candidate
    requires after == sets[c := sets[c].(state := Discarded)]
    ensures |Candidates(after)| < MAX_CANDIDATES
  {
    CandidateGone(sets, c, after);
    hide Candidates;
  }

  lemma CandidateGone(sets: map<Uuid, SetRow>, c: Uuid, after: map<Uuid, SetRow>)
    requires c in sets && sets[c].state == Candidate && after == sets[c := sets[c].(state := Discarded)]
    ensures Candidates(sets) == Candidates(after) + {c} && c !in Candidates(after)
  {
  }

  // ---------------------------------------------------------------------------
  // New sets

  /** A request for usable revisions of different skills, while there is room. */
  ghost predicate Creatable(d: Db, revisions: seq<Uuid>) {
    && |revisions| <= MAX_ITEMS && NoRepeat(revisions)
    && (forall r :: r in revisions ==> Usable(d, r))
    && SkillsDiffer(SelectItems(d, revisions)) && TotalSize(d, revisions) <= MAX_TOTAL_SIZE
    && |Candidates(d.sets)| < MAX_CANDIDATES
  }

  /** Creating a set of such revisions. */
  lemma Creates(d: Db, revisions: seq<Uuid>, s: Uuid, p: Pending) returns (x: Mutation, d': Db)
    requires Inv(d) && s !in d.sets && (forall r :: r in revisions ==> r in d.revisions) && Creatable(d, revisions)
    ensures Leads(d, [x], d', p)
    ensures s in d'.sets && d'.sets == d.sets[s := d'.sets[s]]
    ensures d'.sets[s].state == Candidate && d'.sets[s].items == SelectItems(d, revisions)
    ensures d'.pointer == d.pointer && SameLibrary(d, d')
  {
    hide Inv, Admit, Spares, Evolves, UnusedIdent, TotalSize, Candidates, RequestTaken;
    var id := SomeIdent(d, p);
    x := CreateCall(revisions, id, s);
    UnusedIsFresh(d, p, id, CreateSet, AgentTarget);
    d' := Apply(d, x).0;
    OtherIdent(d, p, id);
    EventSpares(d, d', p, Event(CreateSet, AgentTarget, id, s, 0));
    OneCall(d, x, d', p);
  }

  lemma EmptyCreatable(d: Db)
    requires |Candidates(d.sets)| < MAX_CANDIDATES
    ensures Creatable(d, [])
  {
  }

  lemma NewSet(d: Db, keep: Uuid) returns (s: Uuid)
    ensures s !in d.sets && s != keep
  {
    s := Unused(d.sets.Keys + {keep});
  }

  /** Creating an empty set under a given name. */
  lemma AddsEmpty(d: Db, s: Uuid, keep: Uuid, p: Pending) returns (h: seq<Mutation>, d': Db)
    requires Inv(d) && s !in d.sets
    ensures Leads(d, h, d', p) && s in d'.sets && d'.sets[s].state == Candidate && d'.sets[s].items == []
    ensures d'.pointer == d.pointer && SameLibrary(d, d') && (s != keep ==> LeavesSet(d, d', keep))
    ensures forall t :: t in d.sets && d.sets[t].state != Candidate ==> t in d'.sets && d'.sets[t] == d.sets[t]
  {
    hide Inv, Leads, Evolves, Candidates;
    var g, e := MakeRoom(d, keep, p);
    InvOf(d, g, e, p);
    EmptyCreatable(e);
    hide Creatable;
    var x;
    x, d' := Creates(e, [], s, p);
    h := g + [x];
    LeadsOn(d, g, e, [x], d', p);
  }

  lemma InvOf(d: Db, h: seq<Mutation>, d': Db, p: Pending)
    requires Leads(d, h, d', p)
    ensures Inv(d') && Evolves(d, d') && Spares(d, d', p)
  {
    hide Inv, Evolves, Spares, Run;
  }

  // ---------------------------------------------------------------------------
  // New versions

  /** What activating a candidate leaves. */
  ghost predicate Activated(d: Db, s: Uuid, d': Db) {
    && s in d.sets && s in d'.sets && d'.sets[s] == d.sets[s].(state := Active)
    && d'.pointer == Some(Pointer(s, if d.pointer.Some? then Some(d.pointer.value.active) else None, Version(d) + 1))
    && (forall t :: t in d.sets && d.sets[t].state != Active && t != s ==> t in d'.sets && d'.sets[t] == d.sets[t])
    && d'.sets.Keys == d.sets.Keys
    && d'.skills == SyncCurrent(d.skills, d.sets[s].items)
    && d'.revisions == d.revisions && d'.uploadNonces == d.uploadNonces
  }

  lemma ActivatesNow(d: Db, s: Uuid, p: Pending) returns (x: Mutation, d': Db)
    requires Inv(d) && s in d.sets && d.sets[s].state == Candidate && AllUsable(d, d.sets[s].items)
    ensures Leads(d, [x], d', p) && Activated(d, s, d')
  {
    PointedRow(d);
    hide Inv, Admit, Spares, Evolves, UnusedIdent, AllUsable, SyncCurrent, Activate, Activated;
    var id := SomeIdent(d, p);
    x := ActivateCall(s, Version(d), id, true);
    UnusedIsFresh(d, p, id, ActivateSet, SetTarget(s));
    d' := Apply(d, x).0;
    OtherIdent(d, p, id);
    ActivatedBy(d, s, id);
    ActivatedRows(d, s, d');
    EventSpares(d, d', p, Event(ActivateSet, SetTarget(s), id, s, Version(d) + 1));
    OneCall(d, x, d', p);
  }

  lemma ActivatedBy(d: Db, s: Uuid, id: Ident)
    requires Admit(d, ActivateSet, SetTarget(s), id) == Fresh
    requires s in d.sets && d.sets[s].state == Candidate && AllUsable(d, d.sets[s].items)
    requires d.pointer.Some? ==> PointedSetIsActive(d)
    ensures
      var d' := Activate(d, s, Version(d), id, true).0;
      Activated(d, s, d') && d'.events == d.events + [Event(ActivateSet, SetTarget(s), id, s, Version(d) + 1)]
      && forall t :: t in d'.sets ==> t in d.sets && SameContent(d.sets[t], d'.sets[t])
  {
    hide Admit, AllUsable, SyncCurrent;
  }

  lemma ActivatedRows(d: Db, s: Uuid, d': Db)
    requires Activated(d, s, d')
    ensures d'.uploadNonces == d.uploadNonces
  {
    hide SyncCurrent;
  }

  lemma PointedRow(d: Db)
    requires Inv(d)
    ensures d.pointer.Some? ==> PointedSetIsActive(d) && d.pointer.value.active in d.sets
    ensures forall s :: s in d.sets && d.sets[s].state == Active ==> d.pointer.Some? && d.pointer.value.active == s
  {
    HistoryFacts(d);
    hide Inv, History;
    if d.pointer.Some? {
      assert History(d)[|History(d)| - 1] in d.sets;
    }
  }

  /** The pointer is one version on, at an empty set. */
  ghost predicate Advanced(d: Db, d': Db, keep: Uuid) {
    && d'.pointer.Some? && d'.pointer.value.version == Version(d) + 1
    && d'.pointer.value.previous == (if d.pointer.Some? then Some(d.pointer.value.active) else None)
    && d'.pointer.value.active in d'.sets && d'.sets[d'.pointer.value.active].items == []
    && SameLibrary(d, d') && LeavesSet(d, d', keep)
  }

  lemma Advances(d: Db, keep: Uuid, p: Pending) returns (h: seq<Mutation>, d': Db)
    requires Inv(d)
    ensures Leads(d, h, d', p) && Advanced(d, d', keep)
  {
    hide Inv, Leads, Evolves;
    var s := NewSet(d, keep);
    var g, e := AddsEmpty(d, s, keep, p);
    InvOf(d, g, e, p);
    var x;
    x, d' := ActivatesNow(e, s, p);
    h := g + [x];
    LeadsOn(d, g, e, [x], d', p);
  }

  /** Any number of versions further on. */
  lemma {:induction false} RaisesTo(d: Db, version: nat, keep: Uuid, p: Pending) returns (h: seq<Mutation>, d': Db)
    requires Inv(d) && Version(d) <= version
    ensures Leads(d, h, d', p) && Version(d') == version && SameLibrary(d, d') && LeavesSet(d, d', keep)
    decreases version - Version(d)
  {
    hide Inv, Leads, Evolves;
    if Version(d) == version {
      h, d' := [], d;
      StartsHere(d, p);
    } else {
      var g, e := Advances(d, keep, p);
      InvOf(d, g, e, p);
      if keep in d.sets && d.sets[keep].state != Active {
        StaysInactive(d, e, keep);
      }
      var rest;
      rest, d' := RaisesTo(e, version, keep, p);
      h := g + rest;
      LeadsOn(d, g, e, rest, d', p);
    }
  }

  lemma StaysInactive(d: Db, d': Db, keep: Uuid)
    requires LeavesSet(d, d', keep) && keep in d.sets && d.sets[keep].state != Active
    ensures keep in d'.sets && d'.sets[keep].state != Active
  {
  }

  // ---------------------------------------------------------------------------
  // Discards, failures and activations

  /** The repetition changes the database the history leads to. */
  ghost predicate RunsAfter(d: Db, m: Mutation, h: seq<Mutation>, n: Mutation) {
    SameCall(m, n) && Apply(Run(d, h), n).0 != Run(d, h)
  }

  lemma UnseenLater(d: Db, h: seq<Mutation>, e: Db, p: Pending, m: Mutation)
    requires IsSetCall(m) && m.id == p.id && Leads(d, h, e, p) && Unseen(d, m)
    ensures Unseen(e, m) && e == Run(d, h)
  {
    hide Inv, Evolves, Run, Admit;
  }

  lemma RequestFreeLater(d: Db, h: seq<Mutation>, e: Db, p: Pending)
    requires Leads(d, h, e, p) && !RequestTaken(d, p.id.actor, p.id.requestId)
    ensures !RequestTaken(e, p.id.actor, p.id.requestId)
  {
    hide Inv, Evolves, Run, Admit;
  }

  lemma MoreEvents(d: Db, d': Db, e: Event)
    requires d'.events == d.events + [e]
    ensures d' != d
  {
    assert |d'.events| == |d.events| + 1;
  }

  /** The named set exists as a candidate. */
  lemma EnsuresCandidate(d: Db, setId: Uuid, p: Pending) returns (h: seq<Mutation>, d': Db)
    requires Inv(d) && StillCandidate(d, setId)
    ensures Leads(d, h, d', p) && setId in d'.sets && d'.sets[setId].state == Candidate
    ensures d'.sets[setId].items == if setId in d.sets then d.sets[setId].items else []
    ensures d'.pointer == d.pointer && SameLibrary(d, d')
  {
    hide Inv, Leads, Evolves;
    if setId in d.sets {
      h, d' := [], d;
      StartsHere(d, p);
    } else {
      h, d' := AddsEmpty(d, setId, setId, p);
    }
  }

  lemma DiscardRuns(d: Db, m: Mutation) returns (h: seq<Mutation>)
    requires m.DiscardCall? && Inv(d) && MayStillRun(d, m)
    ensures RunsAfter(d, m, h, m)
  {
    hide Inv, Leads, Run, Admit;
    var p, e := Pending(m.id, 0), d;
    h, e := EnsuresCandidate(d, m.setId, p);
    UnseenLater(d, h, e, p, m);
    MoreEvents(e, Apply(e, m).0, Event(DiscardSet, SetTarget(m.setId), m.id, m.setId, 0));
  }

  /** The pointer at the expected version, the named set a candidate with its items. */
  lemma ReachesVersion(d: Db, setId: Uuid, version: nat, p: Pending) returns (h: seq<Mutation>, d': Db)
    requires Inv(d) && StillCandidate(d, setId) && Version(d) <= version
    ensures Leads(d, h, d', p) && setId in d'.sets && d'.sets[setId].state == Candidate && Version(d') == version
    ensures d'.sets[setId].items == if setId in d.sets then d.sets[setId].items else []
    ensures SameLibrary(d, d')
  {
    hide Inv, Leads, Evolves;
    var g, e := RaisesTo(d, version, setId, p);
    InvOf(d, g, e, p);
    var k;
    k, d' := EnsuresCandidate(e, setId, p);
    h := g + k;
    LeadsOn(d, g, e, k, d', p);
  }

  lemma FailRuns(d: Db, m: Mutation) returns (h: seq<Mutation>)
    requires m.FailCall? && Inv(d) && MayStillRun(d, m)
    ensures RunsAfter(d, m, h, m)
  {
    hide Inv, Leads, Run, Admit;
    var p, e := Pending(m.id, 0), d;
    h, e := ReachesVersion(d, m.setId, m.expected, p);
    UnseenLater(d, h, e, p, m);
    MoreEvents(e, Apply(e, m).0, Event(FailSet, SetTarget(m.setId), m.id, m.setId, 0));
  }

  lemma SameUsable(d: Db, d': Db, items: seq<Item>)
    requires AllUsable(d, items) && d'.revisions == d.revisions && d'.skills == d.skills
    ensures AllUsable(d', items)
  {
    forall k | 0 <= k < |items|
      ensures Usable(d', items[k].revision)
    {
      assert Usable(d, items[k].revision);
    }
  }

  lemma ActivateRuns(d: Db, m: Mutation) returns (h: seq<Mutation>, n: Mutation)
    requires m.ActivateCall? && Inv(d) && MayStillRun(d, m)
    ensures RunsAfter(d, m, h, n)
  {
    hide Inv, Leads, Run, Admit, AllUsable, SyncCurrent;
    var p, e := Pending(m.id, 0), d;
    h, e := ReachesVersion(d, m.setId, m.expected, p);
    UnseenLater(d, h, e, p, m);
    SameUsable(d, e, if m.setId in d.sets then d.sets[m.setId].items else []);
    InvOf(d, h, e, p);
    PointedRow(e);
    n := m.(clockAdvanced := true);
    hide Activate;
    ActivatedBy(e, m.setId, m.id);
    MoreEvents(e, Apply(e, n).0, Event(ActivateSet, SetTarget(m.setId), m.id, m.setId, m.expected + 1));
  }

  // ---------------------------------------------------------------------------
  // Clones

  /** The previous set is the expected one, at the expected version, and can be cloned. */
  ghost predicate Cloneable(d: Db, expected: nat, previous: Uuid) {
    && d.pointer.Some? && d.pointer.value.version == expected && d.pointer.value.previous == Some(previous)
    && previous in d.sets && d.sets[previous].state == Superseded && AllUsable(d, d.sets[previous].items)
  }

  lemma CloneEffective(d: Db, expected: nat, previous: Uuid, id: Ident, newId: Uuid)
    requires Cloneable(d, expected, previous) && expected > 0 && newId !in d.sets
    requires Admit(d, CloneSet, PreviousTarget, id) == Fresh && !RequestTaken(d, id.actor, id.requestId)
    requires |Candidates(d.sets)| < MAX_CANDIDATES
    ensures Clone(d, expected, Some(previous), id, newId).0 != d
  {
    hide Admit, RequestTaken, AllUsable, Candidates;
    var d' := Clone(d, expected, Some(previous), id, newId).0;
    MoreEvents(d, d', Event(CloneSet, PreviousTarget, id, newId, 0));
  }

  lemma PreviousSuperseded(d: Db, previous: Uuid)
    requires Inv(d) && d.pointer.Some? && d.pointer.value.previous == Some(previous)
    ensures previous in d.sets && d.sets[previous].state == Superseded && d.pointer.value.version >= 2
  {
    HistoryFacts(d);
    hide Inv, History;
    var g := History(d);
    assert g[|g| - 2] in d.sets && g[|g| - 2] in g && g[|g| - 2] != g[|g| - 1];
  }

  /** The set is the active one of the version before; one more version makes it the previous one. */
  lemma AdvancesPast(d: Db, expected: nat, previous: Uuid, p: Pending) returns (h: seq<Mutation>, d': Db)
    requires Inv(d) && d.pointer.Some? && d.pointer.value.active == previous && expected == Version(d) + 1
    requires previous in d.sets && AllUsable(d, d.sets[previous].items)
    ensures Leads(d, h, d', p) && Cloneable(d', expected, previous)
  {
    hide Inv, Leads, Evolves, AllUsable;
    h, d' := Advances(d, previous, p);
    InvOf(d, h, d', p);
    PreviousSuperseded(d', previous);
    SameItems(d, d', previous);
    SameUsable(d, d', d.sets[previous].items);
  }

  lemma SameItems(d: Db, d': Db, s: Uuid)
    requires Evolves(d, d') && s in d.sets
    ensures s in d'.sets && d'.sets[s].items == d.sets[s].items
  {
  }

  lemma ActiveUsable(d: Db)
    requires Inv(d) && d.pointer.Some?
    ensures d.pointer.value.active in d.sets && AllUsable(d, d.sets[d.pointer.value.active].items)
  {
    PointedRow(d);
    var row := d.sets[d.pointer.value.active];
    RowOf(d, d.pointer.value.active);
    assert RuntimeClean(d) && SetsInv(d);
    hide Inv;
    forall k | 0 <= k < |row.items|
      ensures Usable(d, row.items[k].revision)
    {
      assert ItemHolds(d, row.items[k]) && !Violation(d, row.items[k]);
    }
  }

  /** A set not activated yet is activated two versions before, then passed. */
  lemma ActivatesThenAdvances(d: Db, expected: nat, previous: Uuid, p: Pending) returns (h: seq<Mutation>, d': Db)
    requires Inv(d) && Version(d) + 2 <= expected && StillCandidate(d, previous) && StillUsable(d, previous)
    ensures Leads(d, h, d', p) && Cloneable(d', expected, previous)
  {
    hide Inv, Leads, Evolves, AllUsable, Cloneable, SyncCurrent;
    var g, e := ReachesVersion(d, previous, expected - 2, p);
    InvOf(d, g, e, p);
    SameUsable(d, e, if previous in d.sets then d.sets[previous].items else []);
    var x, f := ActivatesNow(e, previous, p);
    InvOf(e, [x], f, p);
    LeadsOn(d, g, e, [x], f, p);
    ActiveUsable(f);
    var k;
    k, d' := AdvancesPast(f, expected, previous, p);
    h := (g + [x]) + k;
    LeadsOn(d, g + [x], f, k, d', p);
  }

  lemma ReachesPrevious(d: Db, expected: nat, previous: Uuid, p: Pending) returns (h: seq<Mutation>, d': Db)
    requires Inv(d) && Version(d) <= expected && WithinReach(d, expected, previous)
    ensures Leads(d, h, d', p) && Cloneable(d', expected, previous)
  {
    hide Inv, Leads, Evolves, AllUsable;
    if Version(d) == expected {
      h, d' := [], d;
      StartsHere(d, p);
      PreviousSuperseded(d, previous);
    } else if previous in d.sets && d.sets[previous].state == Active {
      PointedRow(d);
      ActiveUsable(d);
      h, d' := AdvancesPast(d, expected, previous, p);
    } else {
      h, d' := ActivatesThenAdvances(d, expected, previous, p);
    }
  }

  lemma CloneRuns(d: Db, m: Mutation) returns (h: seq<Mutation>, n: Mutation)
    requires m.CloneCall? && Inv(d) && MayStillRun(d, m)
    ensures RunsAfter(d, m, h, n)
  {
    hide Inv, Leads, Run, Admit, Evolves, Clone, WithinReach, AllUsable, RequestTaken, Candidates;
    var p, previous := Pending(m.id, 0), m.previous.value;
    var g, e := ReachesPrevious(d, m.expected, previous, p);
    InvOf(d, g, e, p);
    var k, f := MakeRoom(e, previous, p);
    LeadsOn(d, g, e, k, f, p);
    h := g + k;
    UnseenLater(d, h, f, p, m);
    RequestFreeLater(d, h, f, p);
    SameUsable(e, f, e.sets[previous].items);
    var newId := NewSet(f, previous);
    n := CloneCall(m.expected, m.previous, m.id, newId);
    CloneEffective(f, m.expected, previous, m.id, newId);
  }

  // ---------------------------------------------------------------------------
  // Uploads that a continuation makes

  lemma LibrarySpares(d: Db, d': Db, p: Pending, nonce: Uuid)
    requires d'.events == d.events && d'.sets == d.sets && d'.uploadNonces == d.uploadNonces + {nonce} && nonce != p.nonce
    ensures Spares(d, d', p)
  {
  }

  lemma SomeSlug(d: Db) returns (slug: string)
    ensures forall s :: !SlugOwner(d, slug, s)
  {
    var lengths := set s | s in d.skills :: |d.skills[s].slug|;
    var n := Unused(lengths);
    slug := seq(n, _ => 'a');
    forall s | s in d.skills
      ensures d.skills[s].slug != slug
    {
      assert |d.skills[s].slug| in lengths;
    }
  }

  /** The database after the upload of a new skill. */
  ghost function WithSkill(d: Db, slug: string, digest: nat, skill: Uuid, r: Uuid, nonce: Uuid): Db {
    d.(skills := d.skills[skill := Skill(slug, false, r)],
       revisions := d.revisions[r := Revision(skill, false, digest, 1)],
       uploadNonces := d.uploadNonces + {nonce})
  }

  lemma UploadsNew(d: Db, slug: string, digest: nat, skill: Uuid, r: Uuid, p: Pending)
    returns (x: Mutation, d': Db, nonce: Uuid)
    requires Inv(d) && skill !in d.skills && r !in d.revisions && forall s :: !SlugOwner(d, slug, s)
    ensures Leads(d, [x], d', p) && d' == WithSkill(d, slug, digest, skill, r, nonce)
  {
    hide Inv, Spares, Evolves;
    nonce := Unused(d.uploadNonces + {p.nonce});
    var c := UploadCommand(None, None, slug, digest, 1, nonce, skill, r);
    x := UploadCall(c);
    d' := Apply(d, x).0;
    LibrarySpares(d, d', p, nonce);
    OneCall(d, x, d', p);
  }

  /** The database after the upload of another revision of a skill. */
  ghost function WithRevision(d: Db, digest: nat, skill: Uuid, r: Uuid, nonce: Uuid): Db
    requires skill in d.skills
  {
    d.(skills := if InActiveSet(d, skill) then d.skills else d.skills[skill := d.skills[skill].(current := r)],
       revisions := d.revisions[r := Revision(skill, false, digest, 1)],
       uploadNonces := d.uploadNonces + {nonce})
  }

  lemma UploadsOver(d: Db, digest: nat, skill: Uuid, p: Pending)
    returns (x: Mutation, d': Db, r: Uuid, nonce: Uuid)
    requires Inv(d) && skill in d.skills && !d.skills[skill].archived && forall q :: !DigestOwner(d, skill, digest, q)
    ensures Leads(d, [x], d', p) && r !in d.revisions && d' == WithRevision(d, digest, skill, r, nonce)
  {
    OwnRevision(d, skill);
    hide Inv, Spares, Evolves, InActiveSet;
    nonce := Unused(d.uploadNonces + {p.nonce});
    r := Unused(d.revisions.Keys);
    var current := d.revisions[d.skills[skill].current].digest;
    var c := UploadCommand(Some(skill), Some(current), d.skills[skill].slug, digest, 1, nonce, 0, r);
    x := UploadCall(c);
    d' := Apply(d, x).0;
    LibrarySpares(d, d', p, nonce);
    OneCall(d, x, d', p);
  }

  lemma OwnRevision(d: Db, skill: Uuid)
    requires Inv(d) && skill in d.skills
    ensures d.skills[skill].current in d.revisions && d.revisions[d.skills[skill].current].skill == skill
  {
    assert SkillsInv(d);
    hide Inv;
  }

  // ---------------------------------------------------------------------------
  // Creations

  lemma {:induction false} LeastSizeKept(d: Db, d': Db, revisions: seq<Uuid>, r: Uuid)
    requires r !in d.revisions && r in d'.revisions && d'.revisions[r].size == 1
    requires d'.revisions == d.revisions[r := d'.revisions[r]]
    ensures LeastSize(d', revisions) == LeastSize(d, revisions)
  {
    if revisions != [] {
      LeastSizeKept(d, d', revisions[1..], r);
    }
  }

  lemma FitKept(d: Db, revisions: seq<Uuid>, slug: string, skill: Uuid, r: Uuid, nonce: Uuid)
    requires ExistingFit(d, revisions) && OwnersHold(d) && skill !in d.skills && r !in d.revisions
    requires NoRepeat(revisions)
    ensures ExistingFit(WithSkill(d, slug, 0, skill, r, nonce), revisions)
  {
    var d' := WithSkill(d, slug, 0, skill, r, nonce);
    forall i | 0 <= i < |revisions| && revisions[i] in d'.revisions
      ensures Usable(d', revisions[i])
    {
      if revisions[i] != r {
        assert Usable(d, revisions[i]);
      }
    }
  }

  /** The missing revisions are uploaded one by one, each under a new skill. */
  lemma {:induction false} UploadsMissing(d: Db, revisions: seq<Uuid>, i: nat, p: Pending) returns (h: seq<Mutation>, d': Db)
    requires Inv(d) && i <= |revisions| && forall j :: 0 <= j < i ==> revisions[j] in d.revisions
    requires NoRepeat(revisions) && ExistingFit(d, revisions)
    ensures Leads(d, h, d', p) && ExistingFit(d', revisions) && LeastSize(d', revisions) == LeastSize(d, revisions)
    ensures forall j :: 0 <= j < |revisions| ==> revisions[j] in d'.revisions
    decreases |revisions| - i
  {
    assert OwnersHold(d);
    hide Inv, Leads, Evolves, ExistingFit, LeastSize, OwnersHold, WithSkill, NoRepeat;
    if i == |revisions| {
      h, d' := [], d;
      StartsHere(d, p);
    } else if revisions[i] in d.revisions {
      h, d' := UploadsMissing(d, revisions, i + 1, p);
    } else {
      var slug := SomeSlug(d);
      var skill := Unused(d.skills.Keys);
      var x, e, nonce := UploadsNew(d, slug, 0, skill, revisions[i], p);
      InvOf(d, [x], e, p);
      FitKept(d, revisions, slug, skill, revisions[i], nonce);
      WithSkillRows(d, slug, skill, revisions[i], nonce);
      LeastSizeKept(d, e, revisions, revisions[i]);
      var rest;
      rest, d' := UploadsMissing(e, revisions, i + 1, p);
      h := [x] + rest;
      LeadsOn(d, [x], e, rest, d', p);
    }
  }

  lemma WithSkillRows(d: Db, slug: string, skill: Uuid, r: Uuid, nonce: Uuid)
    ensures WithSkill(d, slug, 0, skill, r, nonce).revisions == d.revisions[r := Revision(skill, false, 0, 1)]
  {
  }

  lemma {:induction false} LeastIsTotal(d: Db, revisions: seq<Uuid>)
    requires forall r :: r in revisions ==> r in d.revisions
    ensures LeastSize(d, revisions) == TotalSize(d, revisions)
  {
    if revisions != [] {
      LeastIsTotal(d, revisions[1..]);
    }
  }

  lemma FitIsCreatable(d: Db, d': Db, revisions: seq<Uuid>)
    requires |revisions| <= MAX_ITEMS && NoRepeat(revisions) && ExistingFit(d, revisions)
    requires forall j :: 0 <= j < |revisions| ==> revisions[j] in d.revisions
    requires LeastSize(d, revisions) <= MAX_TOTAL_SIZE
    requires SameLibrary(d, d') && |Candidates(d'.sets)| < MAX_CANDIDATES
    ensures forall r :: r in revisions ==> r in d'.revisions
    ensures Creatable(d', revisions)
  {
    hide Candidates;
    LeastIsTotal(d, revisions);
    SameTotal(d, d', revisions);
    hide TotalSize, LeastSize;
    forall r | r in revisions
      ensures Usable(d', r)
    {
      var j :| 0 <= j < |revisions| && revisions[j] == r;
      assert Usable(d, revisions[j]);
    }
    var items := SelectItems(d', revisions);
    forall i, j | 0 <= i < j < |items|
      ensures items[i].skill != items[j].skill
    {
      assert revisions[i] in d.revisions && revisions[j] in d.revisions;
    }
  }

  lemma {:induction false} SameTotal(d: Db, d': Db, revisions: seq<Uuid>)
    requires d'.revisions == d.revisions
    ensures TotalSize(d', revisions) == TotalSize(d, revisions)
  {
    if revisions != [] {
      SameTotal(d, d', revisions[1..]);
    }
  }

  lemma CreateEffective(d: Db, revisions: seq<Uuid>, id: Ident, newId: Uuid)
    requires (forall r :: r in revisions ==> r in d.revisions) && Creatable(d, revisions) && newId !in d.sets
    requires Admit(d, CreateSet, AgentTarget, id) == Fresh && !RequestTaken(d, id.actor, id.requestId)
    ensures Create(d, revisions, id, newId).0 != d
  {
    hide Admit, RequestTaken, TotalSize, Candidates;
    MoreEvents(d, Create(d, revisions, id, newId).0, Event(CreateSet, AgentTarget, id, newId, 0));
  }

  lemma CreateRuns(d: Db, m: Mutation) returns (h: seq<Mutation>, n: Mutation)
    requires m.CreateCall? && Inv(d) && MayStillRun(d, m)
    ensures RunsAfter(d, m, h, n)
  {
    hide Inv, Leads, Run, Admit, Evolves, Create, RequestTaken, Candidates, ExistingFit, LeastSize, NoRepeat, Creatable;
    var p := Pending(m.id, 0);
    var g, e := UploadsMissing(d, m.revisions, 0, p);
    InvOf(d, g, e, p);
    var k, f := MakeRoom(e, 0, p);
    LeadsOn(d, g, e, k, f, p);
    h := g + k;
    UnseenLater(d, h, f, p, m);
    RequestFreeLater(d, h, f, p);
    FitIsCreatable(e, f, m.revisions);
    var newId := NewSet(f, 0);
    n := CreateCall(m.revisions, m.id, newId);
    CreateEffective(f, m.revisions, m.id, newId);
  }

  // ---------------------------------------------------------------------------
  // Bringing a skill to a digest

  /** An empty set is activated if the skill is in the active one. */
  lemma Deactivates(d: Db, skill: Uuid, p: Pending) returns (h: seq<Mutation>, d': Db)
    requires Inv(d)
    ensures Leads(d, h, d', p) && SameLibrary(d, d') && !InActiveSet(d', skill)
  {
    hide Inv, Leads, Evolves;
    if InActiveSet(d, skill) {
      h, d' := Advances(d, 0, p);
    } else {
      h, d' := [], d;
      StartsHere(d, p);
    }
  }

  /** The slug's skill, if there is one, is archived. */
  lemma FreesSlug(d: Db, slug: string, p: Pending) returns (h: seq<Mutation>, d': Db)
    requires Inv(d)
    ensures Leads(d, h, d', p) && d'.skills.Keys == d.skills.Keys && forall s :: !SlugOwner(d', slug, s)
  {
    hide Inv, Leads, Evolves;
    if s :| SlugOwner(d, slug, s) {
      var g, e := Deactivates(d, s, p);
      InvOf(d, g, e, p);
      var x;
      x, d' := ArchivesSkill(e, s, p);
      h := g + [x];
      LeadsOn(d, g, e, [x], d', p);
      OneOwner(e, d', slug, s);
    } else {
      h, d' := [], d;
      StartsHere(d, p);
    }
  }

  lemma ArchivesSkill(d: Db, s: Uuid, p: Pending) returns (x: Mutation, d': Db)
    requires Inv(d) && s in d.skills && !d.skills[s].archived && !InActiveSet(d, s)
    ensures Leads(d, [x], d', p) && d'.skills == d.skills[s := d.skills[s].(archived := true)]
  {
    OwnRevision(d, s);
    hide Inv, Spares, Evolves, InActiveSet;
    var nonce := Unused(d.uploadNonces + {p.nonce});
    x := ArchiveSkillCall(s, d.revisions[d.skills[s].current].digest, nonce);
    d' := Apply(d, x).0;
    LibrarySpares(d, d', p, nonce);
    OneCall(d, x, d', p);
  }

  lemma OneOwner(d: Db, d': Db, slug: string, s: Uuid)
    requires Inv(d) && SlugOwner(d, slug, s) && d'.skills == d.skills[s := d.skills[s].(archived := true)]
    ensures forall t :: !SlugOwner(d', slug, t)
  {
    assert SkillsInv(d);
    hide Inv, OwnersHold, DigestsUnique;
  }

  /** The skill is there, unarchived, under the slug and at the digest. */
  ghost predicate IsAt(d: Db, skill: Uuid, slug: string, digest: nat) {
    && skill in d.skills && !d.skills[skill].archived && d.skills[skill].slug == slug
    && CurrentDigestIs(d, skill, digest)
  }

  lemma MakesSkill(d: Db, skill: Uuid, slug: string, digest: nat, p: Pending) returns (h: seq<Mutation>, d': Db)
    requires Inv(d) && skill !in d.skills
    ensures Leads(d, h, d', p) && IsAt(d', skill, slug, digest)
  {
    hide Inv, Leads, Evolves;
    var g, e := FreesSlug(d, slug, p);
    InvOf(d, g, e, p);
    var r := Unused(e.revisions.Keys);
    var x, nonce;
    x, d', nonce := UploadsNew(e, slug, digest, skill, r, p);
    h := g + [x];
    LeadsOn(d, g, e, [x], d', p);
  }

  /** No revision has the digest yet: it is uploaded while the skill is not active. */
  lemma UploadsCurrent(d: Db, skill: Uuid, digest: nat, p: Pending) returns (h: seq<Mutation>, d': Db)
    requires Inv(d) && skill in d.skills && !d.skills[skill].archived && forall q :: !DigestOwner(d, skill, digest, q)
    ensures Leads(d, h, d', p) && IsAt(d', skill, d.skills[skill].slug, digest)
  {
    hide Inv, Leads, Evolves, InActiveSet;
    var g, e := Deactivates(d, skill, p);
    InvOf(d, g, e, p);
    assert forall q :: DigestOwner(e, skill, digest, q) <==> DigestOwner(d, skill, digest, q);
    var x, r, nonce;
    x, d', r, nonce := UploadsOver(e, digest, skill, p);
    h := g + [x];
    LeadsOn(d, g, e, [x], d', p);
  }

  /** A published revision has the digest: a set of it alone is activated. */
  lemma ReinstatesRevision(d: Db, skill: Uuid, digest: nat, r: Uuid, p: Pending) returns (h: seq<Mutation>, d': Db)
    requires Inv(d) && skill in d.skills && !d.skills[skill].archived
    requires DigestOwner(d, skill, digest, r) && !d.revisions[r].archived
    ensures Leads(d, h, d', p) && IsAt(d', skill, d.skills[skill].slug, digest)
  {
    hide Inv, Leads, Evolves, Candidates;
    var g, e := MakeRoom(d, 0, p);
    InvOf(d, g, e, p);
    var s := NewSet(e, 0);
    OneCreatable(e, r);
    hide Creatable;
    var x, f := Creates(e, [r], s, p);
    InvOf(e, [x], f, p);
    LeadsOn(d, g, e, [x], f, p);
    assert f.sets[s].items == [Item(skill, r)];
    var y;
    y, d' := ActivatesNow(f, s, p);
    h := (g + [x]) + [y];
    LeadsOn(d, g + [x], f, [y], d', p);
    OneSynced(f.skills, skill, r);
  }

  lemma OneCreatable(d: Db, r: Uuid)
    requires Usable(d, r) && |Candidates(d.sets)| < MAX_CANDIDATES
    ensures Creatable(d, [r])
  {
    assert TotalSize(d, [r]) == d.revisions[r].size + TotalSize(d, []);
  }

  lemma OneSynced(skills: map<Uuid, Skill>, skill: Uuid, r: Uuid)
    requires skill in skills
    ensures SyncCurrent(skills, [Item(skill, r)]) == skills[skill := skills[skill].(current := r)]
  {
    assert [Item(skill, r)][..0] == [];
  }

  lemma BringsTo(d: Db, skill: Uuid, slug: string, digest: nat, p: Pending) returns (h: seq<Mutation>, d': Db)
    requires Inv(d) && DigestWithinReach(d, skill, digest)
    requires skill in d.skills ==> d.skills[skill].slug == slug
    ensures Leads(d, h, d', p) && IsAt(d', skill, slug, digest)
  {
    hide Inv, Leads, Evolves;
    if skill !in d.skills {
      h, d' := MakesSkill(d, skill, slug, digest, p);
    } else if CurrentDigestIs(d, skill, digest) {
      h, d' := [], d;
      StartsHere(d, p);
    } else if r :| DigestOwner(d, skill, digest, r) {
      h, d' := ReinstatesRevision(d, skill, digest, r, p);
    } else {
      h, d' := UploadsCurrent(d, skill, digest, p);
    }
  }

  // ---------------------------------------------------------------------------
  // Uploads and archives

  const NOBODY := Ident(0, 0, 0, Hash([]))

  lemma NonceFreeLater(d: Db, h: seq<Mutation>, e: Db, p: Pending)
    requires Leads(d, h, e, p) && p.nonce !in d.uploadNonces
    ensures p.nonce !in e.uploadNonces && e == Run(d, h)
  {
    hide Inv, Evolves, Run, Admit;
  }

  lemma TargetUploadRuns(d: Db, m: Mutation) returns (h: seq<Mutation>, n: Mutation)
    requires m.UploadCall? && m.upload.target.Some? && Inv(d) && MayStillRun(d, m)
    ensures RunsAfter(d, m, h, n)
  {
    hide Inv, Leads, Run, Evolves, DigestWithinReach, AddRevision;
    var c, p, e := m.upload, Pending(NOBODY, m.upload.nonce), d;
    h, e := BringsTo(d, c.target.value, c.slug, c.expectedDigest.value, p);
    NonceFreeLater(d, h, e, p);
    var r := Unused(e.revisions.Keys);
    n := UploadCall(c.(newRevision := r));
    hide IsAt;
    TargetEffective(e, c.(newRevision := r));
  }

  lemma TargetEffective(d: Db, c: UploadCommand)
    requires c.nonce !in d.uploadNonces && c.newRevision !in d.revisions
    requires c.target.Some? && c.expectedDigest.Some? && IsAt(d, c.target.value, c.slug, c.expectedDigest.value)
    ensures Upload(d, c).0 != d
  {
    hide InActiveSet;
    assert c.nonce in Upload(d, c).0.uploadNonces;
  }

  lemma NewUploadRuns(d: Db, m: Mutation) returns (h: seq<Mutation>, n: Mutation)
    requires m.UploadCall? && m.upload.target.None? && Inv(d) && MayStillRun(d, m)
    ensures RunsAfter(d, m, h, n)
  {
    hide Inv, Leads, Run, Evolves, AddRevision;
    var c, p, e := m.upload, Pending(NOBODY, m.upload.nonce), d;
    if s :| SlugOwner(d, c.slug, s) {
      h, e := HoldsDigest(d, s, c.digest, p);
      NonceFreeLater(d, h, e, p);
      n := m;
      InvOf(d, h, e, p);
      DuplicateEffective(e, c, s);
    } else {
      h := [];
      StartsHere(d, p);
      NonceFreeLater(d, h, d, p);
      var skill := Unused(d.skills.Keys);
      var r := Unused(d.revisions.Keys);
      n := UploadCall(c.(newSkill := skill, newRevision := r));
      NewEffective(d, c.(newSkill := skill, newRevision := r));
    }
  }

  /** The skill gets a revision of the digest. */
  lemma HoldsDigest(d: Db, skill: Uuid, digest: nat, p: Pending) returns (h: seq<Mutation>, d': Db)
    requires Inv(d) && skill in d.skills && !d.skills[skill].archived
    ensures Leads(d, h, d', p) && (exists r :: DigestOwner(d', skill, digest, r))
    ensures skill in d'.skills && d'.skills[skill] == d.skills[skill].(current := d'.skills[skill].current)
  {
    hide Inv, Leads, Evolves, InActiveSet;
    if exists r :: DigestOwner(d, skill, digest, r) {
      h, d' := [], d;
      StartsHere(d, p);
    } else {
      var x, r, nonce;
      x, d', r, nonce := UploadsOver(d, digest, skill, p);
      h := [x];
      assert DigestOwner(d', skill, digest, r);
    }
  }

  lemma DuplicateEffective(d: Db, c: UploadCommand, s: Uuid)
    requires Inv(d) && c.nonce !in d.uploadNonces && c.target.None?
    requires SlugOwner(d, c.slug, s) && exists r :: DigestOwner(d, s, c.digest, r)
    ensures Upload(d, c).0 != d
  {
    assert SkillsInv(d);
    hide Inv, OwnersHold, DigestsUnique;
    assert c.nonce in Upload(d, c).0.uploadNonces;
  }

  lemma NewEffective(d: Db, c: UploadCommand)
    requires c.nonce !in d.uploadNonces && c.target.None? && c.newSkill !in d.skills && c.newRevision !in d.revisions
    requires forall s :: !SlugOwner(d, c.slug, s)
    ensures Upload(d, c).0 != d
  {
    hide InActiveSet;
    assert c.nonce in Upload(d, c).0.uploadNonces;
  }

  lemma ArchiveSkillRuns(d: Db, m: Mutation) returns (h: seq<Mutation>)
    requires m.ArchiveSkillCall? && Inv(d) && MayStillRun(d, m)
    ensures RunsAfter(d, m, h, m)
  {
    hide Inv, Leads, Run, Evolves, DigestWithinReach, InActiveSet;
    var p := Pending(NOBODY, m.nonce);
    var slug := SomeSlug(d);
    if m.skill in d.skills {
      slug := d.skills[m.skill].slug;
    }
    var g, e := BringsTo(d, m.skill, slug, m.digest, p);
    InvOf(d, g, e, p);
    var k, f := Deactivates(e, m.skill, p);
    LeadsOn(d, g, e, k, f, p);
    h := g + k;
    NonceFreeLater(d, h, f, p);
    assert m.nonce in Apply(f, m).0.uploadNonces;
  }

  lemma ArchiveRevisionRuns(d: Db, m: Mutation) returns (h: seq<Mutation>)
    requires m.ArchiveRevisionCall? && Inv(d) && MayStillRun(d, m)
    ensures RunsAfter(d, m, h, m)
  {
    hide Inv, Leads, Run, Evolves;
    var p, e := Pending(NOBODY, 0), d;
    if m.revision in d.revisions {
      h, e := AdvancesTwice(d, m.revision, p);
    } else {
      var slug := SomeSlug(d);
      var skill := Unused(d.skills.Keys);
      var x, nonce;
      x, e, nonce := UploadsNew(d, slug, 0, skill, m.revision, p);
      h := [x];
      UnknownNotActive(d, m.revision);
      assert !InActiveOrPrevious(e, m.revision);
    }
    EndsAt(d, h, e, p);
    assert m.revision in e.revisions && Apply(e, m).0.revisions[m.revision].archived;
  }

  lemma EndsAt(d: Db, h: seq<Mutation>, e: Db, p: Pending)
    requires Leads(d, h, e, p)
    ensures e == Run(d, h)
  {
    hide Inv, Evolves, Run, Spares;
  }

  /** Two empty sets later the revision is in neither the active nor the previous set. */
  lemma AdvancesTwice(d: Db, revision: Uuid, p: Pending) returns (h: seq<Mutation>, d': Db)
    requires Inv(d)
    ensures Leads(d, h, d', p) && SameLibrary(d, d') && !InActiveOrPrevious(d', revision)
  {
    hide Inv, Leads, Evolves;
    var g, e := Advances(d, 0, p);
    InvOf(d, g, e, p);
    var k;
    k, d' := Advances(e, 0, p);
    h := g + k;
    InvOf(e, k, d', p);
    SameItems(e, d', e.pointer.value.active);
    LeadsOn(d, g, e, k, d', p);
  }

  lemma UnknownNotActive(d: Db, revision: Uuid)
    requires Inv(d) && revision !in d.revisions
    ensures !InActiveOrPrevious(d, revision)
  {
    assert SetsInv(d);
    hide Inv;
    forall s | s in d.sets
      ensures !HasRevision(d.sets[s].items, revision)
    {
      ItemsExist(d, s);
    }
  }

  // ---------------------------------------------------------------------------
  // The exact condition

  lemma StillRuns(d: Db, m: Mutation) returns (h: seq<Mutation>, n: Mutation)
    requires Inv(d) && MayStillRun(d, m)
    ensures RunsAfter(d, m, h, n)
  {
    hide Inv, MayStillRun, RunsAfter;
    n := m;
    match m
    case CreateCall(_, _, _) => h, n := CreateRuns(d, m);
    case DiscardCall(_, _) => h := DiscardRuns(d, m);
    case CloneCall(_, _, _, _) => h, n := CloneRuns(d, m);
    case ActivateCall(_, _, _, _) => h, n := ActivateRuns(d, m);
    case FailCall(_, _, _, _) => h := FailRuns(d, m);
    case UploadCall(upload) =>
      if upload.target.Some? {
        h, n := TargetUploadRuns(d, m);
      } else {
        h, n := NewUploadRuns(d, m);
      }
    case ArchiveSkillCall(_, _, _) => h := ArchiveSkillRuns(d, m);
    case ArchiveRevisionCall(_) => h := ArchiveRevisionRuns(d, m);
  }

  /**
   Repeating a request is harmless exactly if its first call changed the database, or the tables show that
   it can never run any more.
   */
  lemma HarmlessExactly(d: Db, m: Mutation)
    requires Inv(d)
    ensures Harmless(Apply(d, m).0, m) <==> Apply(d, m).0 != d || !MayStillRun(d, m)
  {
    hide Inv, Apply, MayStillRun, Run, Evolves;
    if Apply(d, m).0 != d {
      forall between: seq<Mutation>, n: Mutation | SameCall(m, n)
        ensures Apply(Run(Apply(d, m).0, between), n).0 == Run(Apply(d, m).0, between)
      {
        RetryIsNoOp(d, m, between, n);
      }
    } else if MayStillRun(d, m) {
      var h, n := StillRuns(d, m);
    } else {
      forall between: seq<Mutation>, n: Mutation | SameCall(m, n)
        ensures Apply(Run(d, between), n).0 == Run(d, between)
      {
        RunKeeps(d, between);
        if Apply(Run(d, between), n).0 != Run(d, between) {
          MayHaveRun(d, Run(d, between), m, n);
        }
      }
    }
  }
}
