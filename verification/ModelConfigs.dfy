/**
 The revision chains of model configurations: save_model_config carries the key over from the previous
 revision unless a new one is supplied, and save_draft appends the sealed revision by compare-and-swap.
 Other saves may run between the load of the previous revision and the save that relies on it.
 */
module ModelConfigs {
  import opened Common
  import opened ModelCrypto

  datatype Row = Row(provider: Provider, sealed: Sealed, revision: nat, current: bool)

  datatype Db = Db(rows: map<ConfigId, Row>, nonces: set<Uuid>)

  /** The service between load_sealed and save_draft keeps what it loaded, with its identifier. */
  datatype Loaded = Loaded(id: ConfigId, row: Row)

  datatype State = State(db: Db, sessions: map<nat, Option<Loaded>>)

  const INITIAL := State(Db(map[], {}), map[])

  const KEYLESS := "aap-keyless-none"

  /** A draft after validation; `keyRequired` comes from its endpoint. */
  datatype Draft = Draft(provider: Provider, key: Option<string>, keyRequired: bool, expected: nat)

  datatype SaveCommand = SaveCommand(id: ConfigId, provider: Provider, sealed: Sealed, revision: nat, expected: nat)

  datatype Failure = Conflict | ValidationError | EncryptionUnavailable

  // ---------------------------------------------------------------------------
  // The repository

  predicate IsHead(rows: map<ConfigId, Row>, provider: Provider, id: ConfigId) {
    id in rows && rows[id].provider == provider && rows[id].current
  }

  ghost function Head(rows: map<ConfigId, Row>, provider: Provider): Option<ConfigId> {
    if id: ConfigId :| IsHead(rows, provider, id) then Some(id) else None
  }

  predicate RevisionTaken(rows: map<ConfigId, Row>, provider: Provider, revision: nat) {
    exists id :: id in rows && rows[id].provider == provider && rows[id].revision == revision
  }

  /** One row retired and one inserted, or a rejected transaction that leaves everything as it was. */
  ghost function SaveDraft(d: Db, c: SaveCommand, nonce: Uuid): (Db, Option<Failure>) {
    var head := Head(d.rows, c.provider);
    if head.None? && (c.expected != 0 || c.revision != 1) then (d, Some(Conflict))
    else if head.Some? && (c.expected != d.rows[head.value].revision || c.revision != d.rows[head.value].revision + 1) then
      (d, Some(Conflict))
    else if head.Some? && head.value == c.id then (d, Some(ValidationError))
    else if c.id in d.rows || RevisionTaken(d.rows, c.provider, c.revision) || nonce in d.nonces then
      (d, Some(Conflict))
    else
      var retired := if head.Some? then d.rows[head.value := d.rows[head.value].(current := false)] else d.rows;
      (Db(retired[c.id := Row(c.provider, c.sealed, c.revision, true)], d.nonces + {nonce}), None)
  }

  // ---------------------------------------------------------------------------
  // The service

  /** The secret to seal, or why there is none. */
  function SecretFor(draft: Draft, loaded: Option<Loaded>): (Option<string>, Failure) {
    if draft.key.Some? then (draft.key, Conflict)
    else if !draft.keyRequired then (Some(KEYLESS), Conflict)
    else if loaded.None? || loaded.value.row.provider != draft.provider || loaded.value.row.revision != draft.expected then
      (None, Conflict)
    else
      (Open(loaded.value.id, draft.provider, loaded.value.row.revision, loaded.value.row.sealed), EncryptionUnavailable)
  }

  ghost function Save(s: State, session: nat, draft: Draft, id: ConfigId, sealNonce: Bytes, nonce: Uuid): (State, Option<Failure>) {
    var loaded := if session in s.sessions then s.sessions[session] else None;
    var (secret, failure) := SecretFor(draft, loaded);
    if secret.None? then (s, Some(failure))
    else match Seal(id, draft.provider, draft.expected + 1, secret.value, sealNonce)
      case None => (s, Some(EncryptionUnavailable))
      case Some(sealed) =>
        var (db, out) := SaveDraft(s.db, SaveCommand(id, draft.provider, sealed, draft.expected + 1, draft.expected), nonce);
        (s.(db := db), out)
  }

  /** load_sealed, kept for the rest of the call. */
  ghost function Load(s: State, session: nat, provider: Provider): State {
    var head := Head(s.db.rows, provider);
    s.(sessions := s.sessions[session := if head.Some? then Some(Loaded(head.value, s.db.rows[head.value])) else None])
  }

  datatype Step =
    | LoadSealed(session: nat, provider: Provider)
    | SaveConfig(session: nat, draft: Draft, id: ConfigId, sealNonce: Bytes, nonce: Uuid)

  ghost function Next(s: State, a: Step): State {
    match a
    case LoadSealed(session, provider) => Load(s, session, provider)
    case SaveConfig(session, draft, id, sealNonce, nonce) => Save(s, session, draft, id, sealNonce, nonce).0
  }

  ghost function Run(s: State, steps: seq<Step>): State
    decreases |steps|
  {
    if steps == [] then s else Run(Next(s, steps[0]), steps[1..])
  }

  // ---------------------------------------------------------------------------
  // What every step keeps

  /** The revisions of a provider are 1 to n, each once, and exactly the n-th is current. */
  ghost predicate Chain(rows: map<ConfigId, Row>, provider: Provider, n: nat) {
    && (forall id :: id in rows && rows[id].provider == provider ==>
          1 <= rows[id].revision <= n && (rows[id].current <==> rows[id].revision == n))
    && (forall revision :: 1 <= revision <= n ==> RevisionTaken(rows, provider, revision))
    && (forall i: ConfigId, j: ConfigId :: SameRevision(rows, provider, i, j) ==> i == j)
  }

  predicate SameRevision(rows: map<ConfigId, Row>, provider: Provider, i: ConfigId, j: ConfigId) {
    i in rows && j in rows && rows[i].provider == rows[j].provider == provider && rows[i].revision == rows[j].revision
  }

  ghost predicate Chained(rows: map<ConfigId, Row>, provider: Provider) {
    exists n: nat :: Chain(rows, provider, n)
  }

  ghost predicate Opens(id: ConfigId, row: Row) {
    Open(id, row.provider, row.revision, row.sealed).Some?
  }

  /** A loaded row is still there, perhaps retired since. */
  ghost predicate LoadedHolds(rows: map<ConfigId, Row>, l: Loaded) {
    l.id in rows && rows[l.id].(current := true) == l.row && l.row.current
  }

  ghost predicate Inv(s: State) {
    (
      && (forall p :: Chained(s.db.rows, p))
      && (forall id :: id in s.db.rows ==> Opens(id, s.db.rows[id]))
      && (forall session :: session in s.sessions && s.sessions[session].Some? ==>
            LoadedHolds(s.db.rows, s.sessions[session].value))
    ) == true
  }

  /** The key of the current revision. */
  ghost function HeadKey(rows: map<ConfigId, Row>, provider: Provider): Option<string> {
    var head := Head(rows, provider);
    if head.None? then None
    else Open(head.value, provider, rows[head.value].revision, rows[head.value].sealed)
  }

  lemma HeadIsLast(rows: map<ConfigId, Row>, provider: Provider, n: nat)
    requires Chain(rows, provider, n)
    ensures Head(rows, provider).Some? <==> n > 0
    ensures n > 0 ==> rows[Head(rows, provider).value].revision == n
    ensures forall id: ConfigId :: IsHead(rows, provider, id) ==> Head(rows, provider) == Some(id)
  {
    if n > 0 {
      assert RevisionTaken(rows, provider, n);
      var id :| id in rows && rows[id].provider == provider && rows[id].revision == n;
      assert IsHead(rows, provider, id);
    }
    forall id: ConfigId | IsHead(rows, provider, id)
      ensures Head(rows, provider) == Some(id)
    {
      assert SameRevision(rows, provider, Head(rows, provider).value, id);
    }
  }

  ghost predicate Appends(rows: map<ConfigId, Row>, rows': map<ConfigId, Row>, provider: Provider, id: ConfigId, row: Row) {
    var head := Head(rows, provider);
    && id !in rows && row.provider == provider && row.current
    && rows' == (if head.Some? then rows[head.value := rows[head.value].(current := false)] else rows)[id := row]
  }

  lemma AppendKeepsChain(rows: map<ConfigId, Row>, rows': map<ConfigId, Row>, provider: Provider, id: ConfigId, row: Row, n: nat)
    requires Chain(rows, provider, n) && Appends(rows, rows', provider, id, row) && row.revision == n + 1
    ensures Chain(rows', provider, n + 1)
  {
    HeadIsLast(rows, provider, n);
    forall i | i in rows' && rows'[i].provider == provider
      ensures 1 <= rows'[i].revision <= n + 1 && (rows'[i].current <==> rows'[i].revision == n + 1)
    {
      assert i != id ==> i in rows && (rows[i].current ==> IsHead(rows, provider, i));
    }
    forall revision | 1 <= revision <= n + 1
      ensures RevisionTaken(rows', provider, revision)
    {
      if revision <= n {
        assert RevisionTaken(rows, provider, revision);
        var i :| i in rows && rows[i].provider == provider && rows[i].revision == revision;
        assert i in rows' && rows'[i].provider == provider && rows'[i].revision == revision;
      } else {
        assert id in rows' && rows'[id].provider == provider && rows'[id].revision == revision;
      }
    }
    forall i: ConfigId, j: ConfigId | SameRevision(rows', provider, i, j)
      ensures i == j
    {
      assert i != id && j != id ==> SameRevision(rows, provider, i, j);
    }
  }

  predicate IsRow(rows: map<ConfigId, Row>, provider: Provider, id: ConfigId, row: Row) {
    id in rows && rows[id] == row && row.provider == provider
  }

  /** The rows of a provider are the same in both tables. */
  ghost predicate SameRows(rows: map<ConfigId, Row>, rows': map<ConfigId, Row>, provider: Provider) {
    forall id: ConfigId, row :: IsRow(rows, provider, id, row) <==> IsRow(rows', provider, id, row)
  }

  lemma AppendSparesOthers(rows: map<ConfigId, Row>, rows': map<ConfigId, Row>, provider: Provider, id: ConfigId, row: Row, other: Provider)
    requires Appends(rows, rows', provider, id, row) && other != provider
    ensures SameRows(rows, rows', other)
  {
  }

  lemma SameRowsSameChain(rows: map<ConfigId, Row>, rows': map<ConfigId, Row>, provider: Provider, n: nat)
    requires SameRows(rows, rows', provider) && Chain(rows, provider, n)
    ensures Chain(rows', provider, n)
  {
    hide RevisionTaken;
    forall id | id in rows' && rows'[id].provider == provider
      ensures id in rows && rows[id] == rows'[id]
    {
      assert IsRow(rows', provider, id, rows'[id]);
    }
    forall revision | 1 <= revision <= n
      ensures RevisionTaken(rows', provider, revision)
    {
      assert RevisionTaken(rows, provider, revision);
      TakenInBoth(rows, rows', provider, revision);
    }
    forall i: ConfigId, j: ConfigId | SameRevision(rows', provider, i, j)
      ensures i == j
    {
      assert SameRevision(rows, provider, i, j);
    }
  }

  lemma TakenInBoth(rows: map<ConfigId, Row>, rows': map<ConfigId, Row>, provider: Provider, revision: nat)
    requires SameRows(rows, rows', provider) && RevisionTaken(rows, provider, revision)
    ensures RevisionTaken(rows', provider, revision)
  {
    var i :| i in rows && rows[i].provider == provider && rows[i].revision == revision;
    assert IsRow(rows, provider, i, rows[i]);
    assert i in rows' && rows'[i].provider == provider && rows'[i].revision == revision;
  }

  lemma SameRowsSameHead(rows: map<ConfigId, Row>, rows': map<ConfigId, Row>, provider: Provider, n: nat)
    requires SameRows(rows, rows', provider) && Chain(rows, provider, n)
    ensures Head(rows', provider) == Head(rows, provider) && HeadKey(rows', provider) == HeadKey(rows, provider)
  {
    SameRowsSameChain(rows, rows', provider, n);
    HeadIsLast(rows, provider, n);
    HeadIsLast(rows', provider, n);
    if n > 0 {
      var id := Head(rows, provider).value;
      assert IsRow(rows, provider, id, rows[id]);
      assert IsHead(rows', provider, id);
    }
  }

  // ---------------------------------------------------------------------------
  // A save, seen from the chain

  /** What a successful save appends. */
  lemma SaveDraftAppends(d: Db, c: SaveCommand, nonce: Uuid)
    requires SaveDraft(d, c, nonce).1.None?
    ensures Appends(d.rows, SaveDraft(d, c, nonce).0.rows, c.provider, c.id, Row(c.provider, c.sealed, c.revision, true))
    ensures var head := Head(d.rows, c.provider);
            if head.None? then c.revision == 1 else c.revision == d.rows[head.value].revision + 1
  {
  }

  /** The key a draft asks for, given the key of the revision before it. */
  function KeyAsked(draft: Draft, before: Option<string>): Option<string> {
    if draft.key.Some? then draft.key
    else if !draft.keyRequired then Some(KEYLESS)
    else before
  }

  ghost function CommandOf(s: State, session: nat, draft: Draft, id: ConfigId, sealed: Sealed): SaveCommand {
    SaveCommand(id, draft.provider, sealed, draft.expected + 1, draft.expected)
  }

  ghost function LoadedIn(s: State, session: nat): Option<Loaded> {
    if session in s.sessions then s.sessions[session] else None
  }

  /** A successful save sealed a secret and appended it. */
  lemma SaveParts(s: State, session: nat, draft: Draft, id: ConfigId, sealNonce: Bytes, nonce: Uuid) returns (secret: string, sealed: Sealed)
    requires Save(s, session, draft, id, sealNonce, nonce).1.None?
    ensures SecretFor(draft, LoadedIn(s, session)).0 == Some(secret)
    ensures Seal(id, draft.provider, draft.expected + 1, secret, sealNonce) == Some(sealed)
    ensures SaveDraft(s.db, CommandOf(s, session, draft, id, sealed), nonce).1.None?
    ensures Save(s, session, draft, id, sealNonce, nonce).0 ==
            s.(db := SaveDraft(s.db, CommandOf(s, session, draft, id, sealed), nonce).0)
  {
    hide SaveDraft, Seal, Open, SecretFor;
    secret := SecretFor(draft, LoadedIn(s, session)).0.value;
    sealed := Seal(id, draft.provider, draft.expected + 1, secret, sealNonce).value;
  }

  /** The row loaded earlier is the head the save replaces, so the key carried over is the current one. */
  lemma CarriesHeadKey(rows: map<ConfigId, Row>, loaded: Option<Loaded>, draft: Draft, n: nat)
    requires Chain(rows, draft.provider, n) && draft.expected == n
    requires loaded.Some? ==> LoadedHolds(rows, loaded.value)
    requires SecretFor(draft, loaded).0.Some?
    ensures SecretFor(draft, loaded).0 == KeyAsked(draft, HeadKey(rows, draft.provider))
  {
    hide Open;
    HeadIsLast(rows, draft.provider, n);
    if draft.key.None? && draft.keyRequired {
      assert loaded.value.row.revision == n && rows[loaded.value.id].revision == n;
      assert n > 0;
      assert SameRevision(rows, draft.provider, loaded.value.id, Head(rows, draft.provider).value);
    }
  }

  /** A successful save makes the sealed secret the key of the new head and leaves every other provider alone. */
  lemma SaveEffect(s: State, session: nat, draft: Draft, id: ConfigId, sealNonce: Bytes, nonce: Uuid, n: nat)
    requires Inv(s) && Chain(s.db.rows, draft.provider, n)
    requires Save(s, session, draft, id, sealNonce, nonce).1.None?
    ensures
      var rows, rows' := s.db.rows, Save(s, session, draft, id, sealNonce, nonce).0.db.rows;
      && Chain(rows', draft.provider, n + 1)
      && draft.expected == n
      && HeadKey(rows', draft.provider).Some?
      && HeadKey(rows', draft.provider) == KeyAsked(draft, HeadKey(rows, draft.provider))
      && (forall other :: other != draft.provider ==> SameRows(rows, rows', other))
      && id in rows' && Opens(id, rows'[id])
      && (forall i :: i in rows ==> i in rows' && rows'[i] == rows[i].(current := rows'[i].current) && i != id)
      && (forall i :: i in rows' ==> i == id || i in rows)
  {
    hide Save, SaveDraft, Open, Seal, SecretFor, HeadKey, Chain, Appends, SameRows;
    var rows := s.db.rows;
    var secret, sealed := SaveParts(s, session, draft, id, sealNonce, nonce);
    var c := CommandOf(s, session, draft, id, sealed);
    SaveDraftAppends(s.db, c, nonce);
    HeadIsLast(rows, draft.provider, n);
    var row := Row(draft.provider, sealed, draft.expected + 1, true);
    var rows' := SaveDraft(s.db, c, nonce).0.rows;
    LoadedInHolds(s, session);
    hide Inv, LoadedHolds;
    CarriesHeadKey(rows, LoadedIn(s, session), draft, n);
    AppendKeepsChain(rows, rows', draft.provider, id, row, n);
    AppendedRows(rows, rows', draft.provider, id, row);
    NewHeadKey(rows', draft.provider, id, row, n + 1, secret, sealNonce);
  }

  lemma LoadedInHolds(s: State, session: nat)
    requires Inv(s)
    ensures LoadedIn(s, session).Some? ==> LoadedHolds(s.db.rows, LoadedIn(s, session).value)
  {
  }

  lemma AppendedRows(rows: map<ConfigId, Row>, rows': map<ConfigId, Row>, provider: Provider, id: ConfigId, row: Row)
    requires Appends(rows, rows', provider, id, row)
    ensures forall other :: other != provider ==> SameRows(rows, rows', other)
    ensures IsRow(rows', provider, id, row)
    ensures forall i :: i in rows ==> i in rows' && rows'[i] == rows[i].(current := rows'[i].current) && i != id
    ensures forall i :: i in rows' ==> i == id || i in rows
  {
    hide SameRows;
    forall other | other != provider
      ensures SameRows(rows, rows', other)
    {
      AppendSparesOthers(rows, rows', provider, id, row, other);
    }
  }

  lemma NewHeadKey(rows: map<ConfigId, Row>, provider: Provider, id: ConfigId, row: Row, n: nat, secret: string, sealNonce: Bytes)
    requires Chain(rows, provider, n) && IsRow(rows, provider, id, row) && row.current && row.revision == n
    requires Seal(id, provider, n, secret, sealNonce) == Some(row.sealed)
    ensures HeadKey(rows, provider) == Some(secret) && Opens(id, row)
  {
    hide Open, Seal;
    HeadIsLast(rows, provider, n);
    assert IsHead(rows, provider, id);
    OpensInItsContextOnly(id, provider, n, secret, sealNonce, id, provider, n);
  }

  // ---------------------------------------------------------------------------
  // Every run

  lemma SaveKeeps(s: State, session: nat, draft: Draft, id: ConfigId, sealNonce: Bytes, nonce: Uuid)
    requires Inv(s)
    ensures Inv(Save(s, session, draft, id, sealNonce, nonce).0)
  {
    hide Save, Open, Chain, SameRows, HeadKey, Opens, LoadedHolds;
    if Save(s, session, draft, id, sealNonce, nonce).1.None? {
      var t := Save(s, session, draft, id, sealNonce, nonce).0;
      assert Chained(s.db.rows, draft.provider);
      var n: nat :| Chain(s.db.rows, draft.provider, n);
      SaveEffect(s, session, draft, id, sealNonce, nonce, n);
      SaveKeepsSessions(s, session, draft, id, sealNonce, nonce);
      SaveKeepsChains(s, t, draft.provider, n);
      SaveKeepsRows(s, t, id);
    } else {
      RejectedSave(s, session, draft, id, sealNonce, nonce);
    }
  }

  lemma SaveKeepsChains(s: State, t: State, provider: Provider, n: nat)
    requires Inv(s) && Chain(t.db.rows, provider, n + 1)
    requires forall other :: other != provider ==> SameRows(s.db.rows, t.db.rows, other)
    ensures forall p :: Chained(t.db.rows, p)
  {
    hide Chain, SameRows, Opens, LoadedHolds;
    forall p
      ensures Chained(t.db.rows, p)
    {
      if p != provider {
        assert Chained(s.db.rows, p);
        var m: nat :| Chain(s.db.rows, p, m);
        SameRowsSameChain(s.db.rows, t.db.rows, p, m);
      }
    }
  }

  lemma SaveKeepsRows(s: State, t: State, id: ConfigId)
    requires Inv(s) && t.sessions == s.sessions && id in t.db.rows && Opens(id, t.db.rows[id])
    requires forall i :: i in s.db.rows ==> i in t.db.rows && t.db.rows[i] == s.db.rows[i].(current := t.db.rows[i].current)
    requires forall i :: i in t.db.rows ==> i == id || i in s.db.rows
    ensures forall i :: i in t.db.rows ==> Opens(i, t.db.rows[i])
    ensures forall session :: session in t.sessions && t.sessions[session].Some? ==>
              LoadedHolds(t.db.rows, t.sessions[session].value)
  {
    hide Chained, Open;
    forall i | i in t.db.rows
      ensures Opens(i, t.db.rows[i])
    {
      assert i in s.db.rows ==> Opens(i, s.db.rows[i]);
    }
  }

  lemma SaveKeepsSessions(s: State, session: nat, draft: Draft, id: ConfigId, sealNonce: Bytes, nonce: Uuid)
    ensures Save(s, session, draft, id, sealNonce, nonce).0.sessions == s.sessions
  {
    hide SecretFor, Seal, SaveDraft;
  }

  lemma RejectedSave(s: State, session: nat, draft: Draft, id: ConfigId, sealNonce: Bytes, nonce: Uuid)
    requires Save(s, session, draft, id, sealNonce, nonce).1.Some?
    ensures Save(s, session, draft, id, sealNonce, nonce).0 == s
  {
    hide SecretFor, Seal, Open;
  }

  lemma LoadKeeps(s: State, session: nat, provider: Provider)
    requires Inv(s)
    ensures Inv(Load(s, session, provider)) && Load(s, session, provider).db == s.db
  {
    hide Chained, Opens;
  }

  lemma NextKeeps(s: State, a: Step)
    requires Inv(s)
    ensures Inv(Next(s, a))
  {
    hide Inv, Save, Load;
    match a
    case LoadSealed(session, provider) => LoadKeeps(s, session, provider);
    case SaveConfig(session, draft, id, sealNonce, nonce) => SaveKeeps(s, session, draft, id, sealNonce, nonce);
  }

  /** The drafts of a provider whose save succeeded. */
  ghost function Saved(s: State, steps: seq<Step>, provider: Provider): seq<Draft>
    decreases |steps|
  {
    if steps == [] then []
    else SavedBy(s, steps[0], provider) + Saved(Next(s, steps[0]), steps[1..], provider)
  }

  ghost function SavedBy(s: State, a: Step, provider: Provider): seq<Draft> {
    if a.SaveConfig? && a.draft.provider == provider && Save(s, a.session, a.draft, a.id, a.sealNonce, a.nonce).1.None?
    then [a.draft]
    else []
  }

  function KeyAfter(before: Option<string>, drafts: seq<Draft>): Option<string>
    decreases |drafts|
  {
    if drafts == [] then before else KeyAfter(KeyAsked(drafts[0], before), drafts[1..])
  }

  lemma NextCarries(s: State, a: Step, provider: Provider, n: nat)
    requires Inv(s) && Chain(s.db.rows, provider, n)
    ensures
      var drafts := SavedBy(s, a, provider);
      && Chain(Next(s, a).db.rows, provider, n + |drafts|)
      && HeadKey(Next(s, a).db.rows, provider) == KeyAfter(HeadKey(s.db.rows, provider), drafts)
  {
    hide Chain, HeadKey, Save, Load, SameRows;
    if a.LoadSealed? {
      LoadKeeps(s, a.session, a.provider);
      hide Inv;
    } else if Save(s, a.session, a.draft, a.id, a.sealNonce, a.nonce).1.Some? {
      RejectedSave(s, a.session, a.draft, a.id, a.sealNonce, a.nonce);
      hide Inv;
    } else {
      assert Chained(s.db.rows, a.draft.provider);
      var m: nat :| Chain(s.db.rows, a.draft.provider, m);
      SaveEffect(s, a.session, a.draft, a.id, a.sealNonce, a.nonce, m);
      hide Inv;
      if a.draft.provider == provider {
        SaveEffect(s, a.session, a.draft, a.id, a.sealNonce, a.nonce, n);
        assert KeyAfter(KeyAsked(a.draft, HeadKey(s.db.rows, provider)), [a.draft][1..]) == KeyAsked(a.draft, HeadKey(s.db.rows, provider));
      } else {
        SameRowsSameChain(s.db.rows, Next(s, a).db.rows, provider, n);
        SameRowsSameHead(s.db.rows, Next(s, a).db.rows, provider, n);
      }
    }
  }

  lemma {:induction false} RunCarries(s: State, steps: seq<Step>, provider: Provider, n: nat)
    requires Inv(s) && Chain(s.db.rows, provider, n)
    ensures
      var drafts := Saved(s, steps, provider);
      && Chain(Run(s, steps).db.rows, provider, n + |drafts|)
      && HeadKey(Run(s, steps).db.rows, provider) == KeyAfter(HeadKey(s.db.rows, provider), drafts)
    decreases |steps|
  {
    hide Inv, Chain, HeadKey, Next, SavedBy, KeyAfter;
    if steps == [] {
      EmptyKeyAfter(HeadKey(s.db.rows, provider));
    } else {
      var t := Next(s, steps[0]);
      NextKeeps(s, steps[0]);
      NextCarries(s, steps[0], provider, n);
      var first := SavedBy(s, steps[0], provider);
      RunCarries(t, steps[1..], provider, n + |first|);
      KeyAfterConcat(HeadKey(s.db.rows, provider), first, Saved(t, steps[1..], provider));
    }
  }

  lemma EmptyKeyAfter(before: Option<string>)
    ensures KeyAfter(before, []) == before
  {
  }

  lemma {:induction false} KeyAfterConcat(before: Option<string>, xs: seq<Draft>, ys: seq<Draft>)
    ensures KeyAfter(before, xs + ys) == KeyAfter(KeyAfter(before, xs), ys)
    decreases |xs|
  {
    if xs == [] {
      assert xs + ys == ys;
    } else {
      assert (xs + ys)[1..] == xs[1..] + ys;
      KeyAfterConcat(KeyAsked(xs[0], before), xs[1..], ys);
    }
  }

  predicate Supplies(draft: Draft) {
    draft.key.Some? || !draft.keyRequired
  }

  lemma {:induction false} LastSupplied(before: Option<string>, drafts: seq<Draft>, i: nat)
    requires i < |drafts| && Supplies(drafts[i]) && forall j :: i < j < |drafts| ==> !Supplies(drafts[j])
    ensures KeyAfter(before, drafts) == Some(if drafts[i].key.Some? then drafts[i].key.value else KEYLESS)
    decreases |drafts|
  {
    if i > 0 {
      LastSupplied(KeyAsked(drafts[0], before), drafts[1..], i - 1);
    } else {
      NothingSupplied(KeyAsked(drafts[0], before), drafts[1..]);
    }
  }

  lemma {:induction false} NothingSupplied(before: Option<string>, drafts: seq<Draft>)
    requires forall j :: 0 <= j < |drafts| ==> !Supplies(drafts[j])
    ensures KeyAfter(before, drafts) == before
    decreases |drafts|
  {
    if drafts != [] {
      NothingSupplied(before, drafts[1..]);
    }
  }

  /**
   After any run of interleaved loads and saves the revisions of a provider are 1 to the number of saves
   that succeeded, only the last is current, and opening it yields the key supplied last, or the keyless
   constant if the last supplying draft named an endpoint without a key.
   */
  lemma KeyCarriedOver(steps: seq<Step>, provider: Provider, i: nat)
    requires i < |Saved(INITIAL, steps, provider)| && Supplies(Saved(INITIAL, steps, provider)[i])
    requires forall j :: i < j < |Saved(INITIAL, steps, provider)| ==> !Supplies(Saved(INITIAL, steps, provider)[j])
    ensures
      var drafts, rows := Saved(INITIAL, steps, provider), Run(INITIAL, steps).db.rows;
      && Chain(rows, provider, |drafts|)
      && HeadKey(rows, provider) == Some(if drafts[i].key.Some? then drafts[i].key.value else "aap-keyless-none")
  {
    InitialChain(provider);
    hide Chain, Saved, Run, Supplies, HeadKey;
    RunCarries(INITIAL, steps, provider, 0);
    LastSupplied(HeadKey(INITIAL.db.rows, provider), Saved(INITIAL, steps, provider), i);
  }

  lemma InitialChain(provider: Provider)
    ensures Inv(INITIAL) && Chain(INITIAL.db.rows, provider, 0)
  {
    forall p
      ensures Chained(INITIAL.db.rows, p)
    {
      assert Chain(INITIAL.db.rows, p, 0);
    }
  }

  /** The first save of a provider always supplies a key, so there is a last one that does. */
  lemma FirstSupplies(steps: seq<Step>, provider: Provider)
    requires Saved(INITIAL, steps, provider) != []
    ensures Supplies(Saved(INITIAL, steps, provider)[0])
  {
    InitialChain(provider);
    EmptyHasNoKey(INITIAL.db.rows, provider);
    FirstSuppliesFrom(INITIAL, steps, provider);
  }

  lemma EmptyHasNoKey(rows: map<ConfigId, Row>, provider: Provider)
    requires Chain(rows, provider, 0)
    ensures HeadKey(rows, provider).None?
  {
    HeadIsLast(rows, provider, 0);
  }

  lemma {:induction false} FirstSuppliesFrom(s: State, steps: seq<Step>, provider: Provider)
    requires Inv(s) && Chain(s.db.rows, provider, 0) && Saved(s, steps, provider) != []
    ensures Supplies(Saved(s, steps, provider)[0])
    decreases |steps|
  {
    var a := steps[0];
    hide Inv, Chain, Next, Save, HeadKey;
    if SavedBy(s, a, provider) == [] {
      NextCarries(s, a, provider, 0);
      NextKeeps(s, a);
      FirstSuppliesFrom(Next(s, a), steps[1..], provider);
    } else {
      SaveEffect(s, a.session, a.draft, a.id, a.sealNonce, a.nonce, 0);
      EmptyHasNoKey(s.db.rows, provider);
    }
  }

  // ---------------------------------------------------------------------------
  // When a save succeeds

  /** The draft brings a valid key, needs none, or the row loaded before is the revision it replaces. */
  predicate CanSupply(draft: Draft, loaded: Option<Loaded>) {
    match draft.key
    case Some(key) => 8 <= |key| <= 4096 && forall i :: 0 <= i < |key| ==> !IsSpace(key[i])
    case None =>
      || !draft.keyRequired
      || (loaded.Some? && loaded.value.row.provider == draft.provider && loaded.value.row.revision == draft.expected)
  }

  lemma SecretExactly(rows: map<ConfigId, Row>, draft: Draft, loaded: Option<Loaded>)
    requires loaded.Some? ==> LoadedHolds(rows, loaded.value) && Opens(loaded.value.id, rows[loaded.value.id])
    ensures CanSupply(draft, loaded) <==> SecretFor(draft, loaded).0.Some? && ValidSecret(SecretFor(draft, loaded).0.value)
    ensures SecretFor(draft, loaded).0.None? ==> draft.key.None? && draft.keyRequired && SecretFor(draft, loaded).1 == Conflict
  {
    hide AssociatedData, Fits;
    KeylessIsValid();
  }

  lemma KeylessIsValid()
    ensures ValidSecret(KEYLESS)
  {
  }

  lemma LoadedOpens(s: State, session: nat)
    requires Inv(s) && LoadedIn(s, session).Some?
    ensures
      var l := LoadedIn(s, session).value;
      LoadedHolds(s.db.rows, l) && Opens(l.id, s.db.rows[l.id])
  {
    hide Chained, Opens, LoadedHolds;
    assert LoadedHolds(s.db.rows, s.sessions[session].value);
    LoadedIsStored(s.db.rows, s.sessions[session].value);
  }

  lemma LoadedIsStored(rows: map<ConfigId, Row>, l: Loaded)
    requires LoadedHolds(rows, l)
    ensures l.id in rows
  {
  }

  /**
   A save succeeds exactly if it expects the current revision, can supply a key, seals it under a nonce of
   twelve bytes, and neither its identifier nor its nonce is taken.
   */
  lemma SavesExactly(s: State, session: nat, draft: Draft, id: ConfigId, sealNonce: Bytes, nonce: Uuid, n: nat)
    requires Inv(s) && Chain(s.db.rows, draft.provider, n)
    ensures Save(s, session, draft, id, sealNonce, nonce).1.None? <==>
            && draft.expected == n && CanSupply(draft, LoadedIn(s, session))
            && |sealNonce| == 12 && Fits(Context(id, draft.provider, n + 1, 1))
            && id !in s.db.rows && nonce !in s.db.nonces
  {
    hide Inv, Chain, Opens, LoadedHolds, CanSupply, SecretFor, Seal, SaveDraft, Fits, ValidSecret, IsSpace;
    var loaded := LoadedIn(s, session);
    if loaded.Some? {
      LoadedOpens(s, session);
    }
    SecretExactly(s.db.rows, draft, loaded);
    var secret := SecretFor(draft, loaded).0;
    if secret.Some? {
      ValidExactly(secret.value);
      SealsExactly(id, draft.provider, draft.expected + 1, secret.value, sealNonce);
      var sealed := Seal(id, draft.provider, draft.expected + 1, secret.value, sealNonce);
      if sealed.Some? {
        AppendsExactly(s.db, CommandOf(s, session, draft, id, sealed.value), nonce, n);
      }
    }
  }

  lemma ValidExactly(secret: string)
    ensures ValidSecret(secret) <==> 8 <= |secret| <= 4096 && forall i :: 0 <= i < |secret| ==> !IsSpace(secret[i])
  {
    hide IsSpace;
  }

  lemma AppendsExactly(d: Db, c: SaveCommand, nonce: Uuid, n: nat)
    requires Chain(d.rows, c.provider, n) && c.revision == c.expected + 1
    ensures SaveDraft(d, c, nonce).1.None? <==> c.expected == n && c.id !in d.rows && nonce !in d.nonces
  {
    HeadIsLast(d.rows, c.provider, n);
    NextIsFree(d.rows, c.provider, n);
    hide Chain, RevisionTaken, Head;
    HeadStored(d.rows, c.provider);
  }

  lemma HeadStored(rows: map<ConfigId, Row>, provider: Provider)
    ensures Head(rows, provider).Some? ==> Head(rows, provider).value in rows
  {
  }

  lemma NextIsFree(rows: map<ConfigId, Row>, provider: Provider, n: nat)
    requires Chain(rows, provider, n)
    ensures !RevisionTaken(rows, provider, n + 1)
  {
  }

  /** A key loaded from the current revision is carried over by a draft that supplies none. */
  lemma CarryOverWorks(s: State, session: nat, draft: Draft, id: ConfigId, sealNonce: Bytes, nonce: Uuid, n: nat)
    requires Inv(s) && Chain(s.db.rows, draft.provider, n) && n > 0
    requires draft.key.None? && draft.keyRequired && draft.expected == n
    requires |sealNonce| == 12 && Fits(Context(id, draft.provider, n + 1, 1)) && id !in s.db.rows && nonce !in s.db.nonces
    ensures
      var t := Next(Next(s, LoadSealed(session, draft.provider)), SaveConfig(session, draft, id, sealNonce, nonce));
      && Chain(t.db.rows, draft.provider, n + 1)
      && HeadKey(s.db.rows, draft.provider).Some?
      && HeadKey(t.db.rows, draft.provider) == HeadKey(s.db.rows, draft.provider)
  {
    hide Inv, Chain, Save, HeadKey, Fits;
    var u := Next(s, LoadSealed(session, draft.provider));
    LoadKeeps(s, session, draft.provider);
    HeadLoaded(s, session, draft.provider, n);
    SavesExactly(u, session, draft, id, sealNonce, nonce, n);
    SaveEffect(u, session, draft, id, sealNonce, nonce, n);
  }

  lemma HeadLoaded(s: State, session: nat, provider: Provider, n: nat)
    requires Inv(s) && Chain(s.db.rows, provider, n) && n > 0
    ensures
      var l := LoadedIn(Load(s, session, provider), session);
      l.Some? && IsHead(s.db.rows, provider, l.value.id) && l.value.row == s.db.rows[l.value.id] && l.value.row.revision == n
  {
    HeadIsLast(s.db.rows, provider, n);
    hide Chain, Inv;
  }

  /** The draft names a source for its key, valid or not. */
  predicate NamesKey(draft: Draft, loaded: Option<Loaded>) {
    draft.key.Some? || CanSupply(draft, loaded)
  }

  predicate MaySeal(draft: Draft, loaded: Option<Loaded>, sealNonce: Bytes, id: ConfigId) {
    CanSupply(draft, loaded) && |sealNonce| == 12 && Fits(Context(id, draft.provider, draft.expected + 1, 1))
  }

  /**
   Why a save fails: nothing to carry over is a conflict, a key that cannot be sealed an encryption failure,
   then a stale revision is a conflict, the identifier of the current revision invalid, and any other taken
   identifier or nonce a conflict.
   */
  lemma FailsAs(s: State, session: nat, draft: Draft, id: ConfigId, sealNonce: Bytes, nonce: Uuid, n: nat)
    requires Inv(s) && Chain(s.db.rows, draft.provider, n)
    requires Save(s, session, draft, id, sealNonce, nonce).1.Some?
    ensures
      var loaded := LoadedIn(s, session);
      Save(s, session, draft, id, sealNonce, nonce).1.value ==
      if !NamesKey(draft, loaded) then Conflict
      else if !MaySeal(draft, loaded, sealNonce, id) then EncryptionUnavailable
      else if draft.expected == n && IsHead(s.db.rows, draft.provider, id) then ValidationError
      else Conflict
  {
    hide Inv, Chain, Opens, LoadedHolds, CanSupply, SecretFor, Seal, SaveDraft, Fits, ValidSecret, IsSpace, IsHead;
    var loaded := LoadedIn(s, session);
    if loaded.Some? {
      LoadedOpens(s, session);
    }
    SecretExactly(s.db.rows, draft, loaded);
    SecretNamed(draft, loaded);
    var secret := SecretFor(draft, loaded).0;
    if secret.Some? {
      ValidExactly(secret.value);
      SealsExactly(id, draft.provider, draft.expected + 1, secret.value, sealNonce);
      var sealed := Seal(id, draft.provider, draft.expected + 1, secret.value, sealNonce);
      if sealed.Some? {
        RejectedAs(s.db, CommandOf(s, session, draft, id, sealed.value), nonce, n);
      }
    }
  }

  lemma SecretNamed(draft: Draft, loaded: Option<Loaded>)
    requires CanSupply(draft, loaded) ==> SecretFor(draft, loaded).0.Some?
    requires SecretFor(draft, loaded).0.None? ==> !CanSupply(draft, loaded)
    ensures NamesKey(draft, loaded) <==> draft.key.Some? || CanSupply(draft, loaded)
    ensures draft.key.Some? ==> SecretFor(draft, loaded).0.Some?
    ensures !NamesKey(draft, loaded) ==> SecretFor(draft, loaded) == (None, Conflict)
  {
    hide Open, IsSpace;
  }

  lemma RejectedAs(d: Db, c: SaveCommand, nonce: Uuid, n: nat)
    requires Chain(d.rows, c.provider, n) && c.revision == c.expected + 1 && SaveDraft(d, c, nonce).1.Some?
    ensures SaveDraft(d, c, nonce).1.value ==
            if c.expected == n && IsHead(d.rows, c.provider, c.id) then ValidationError else Conflict
  {
    HeadIsLast(d.rows, c.provider, n);
    hide Chain, RevisionTaken;
  }

  // ---------------------------------------------------------------------------
  // Immutability

  /** What the update guard lets through: a row keeps its fields, and a retired one stays retired. */
  ghost predicate KeepsRow(rows: map<ConfigId, Row>, rows': map<ConfigId, Row>, id: ConfigId) {
    id in rows ==> id in rows' && rows'[id] == rows[id].(current := rows'[id].current) && (rows'[id].current ==> rows[id].current)
  }

  lemma NextKeepsRow(s: State, a: Step, id: ConfigId)
    ensures KeepsRow(s.db.rows, Next(s, a).db.rows, id)
  {
    hide Save, SecretFor, Seal, Open;
    if a.SaveConfig? {
      if Save(s, a.session, a.draft, a.id, a.sealNonce, a.nonce).1.Some? {
        RejectedSave(s, a.session, a.draft, a.id, a.sealNonce, a.nonce);
      } else {
        var secret, sealed := SaveParts(s, a.session, a.draft, a.id, a.sealNonce, a.nonce);
        SaveDraftAppends(s.db, CommandOf(s, a.session, a.draft, a.id, sealed), a.nonce);
        hide SaveDraft;
      }
    }
  }

  /** Over any run no stored revision changes, except that the current one may be retired for good. */
  lemma {:induction false} RevisionsImmutable(s: State, steps: seq<Step>, id: ConfigId)
    ensures KeepsRow(s.db.rows, Run(s, steps).db.rows, id)
    decreases |steps|
  {
    if steps != [] {
      NextKeepsRow(s, steps[0], id);
      RevisionsImmutable(Next(s, steps[0]), steps[1..], id);
      hide Next;
    }
  }
}
