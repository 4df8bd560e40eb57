/** save_draft as the sequence of statements it is, on the table of configurations. */
module ModelConfigTable {
  import opened Common
  import opened ModelCrypto
  import opened ModelConfigs

  class ModelConfigRepository {
    var rows: map<ConfigId, Row>
    var nonces: set<Uuid>

    ghost function View(): Db
      reads this
    {
      Db(rows, nonces)
    }

    ghost predicate Valid()
      reads this
    {
      forall p :: Chained(rows, p)
    }

    constructor ()
      ensures Valid() && View() == INITIAL.db
    {
      rows, nonces := map[], {};
      new;
      forall p
        ensures Chained(rows, p)
      {
        InitialChain(p);
      }
    }

    /** The row locked FOR UPDATE as the current one of its provider. */
    method LockCurrentHead(provider: Provider) returns (head: Option<ConfigId>)
      requires Valid()
      ensures head == Head(rows, provider)
    {
      hide Chained, Chain, Head, IsHead;
      head := None;
      var unseen := rows.Keys;
      while unseen != {} && head.None?
        invariant unseen <= rows.Keys
        invariant forall id :: id in rows && id !in unseen && IsHead(rows, provider, id) ==> head == Some(id)
        invariant head.Some? ==> IsHead(rows, provider, head.value)
        decreases |unseen|
      {
        var id :| id in unseen;
        unseen := unseen - {id};
        if IsHead(rows, provider, id) {
          head := Some(id);
        }
      }
      OneHead(rows, provider);
    }

    method RetireHead(id: ConfigId)
      requires id in rows && rows[id].current
      modifies this`rows
      ensures rows == old(rows)[id := old(rows)[id].(current := false)]
    {
      rows := rows[id := rows[id].(current := false)];
    }

    /** A failure anywhere rolls the transaction back. */
    method SaveDraftRow(c: SaveCommand, nonce: Uuid) returns (failure: Option<Failure>)
      requires Valid()
      modifies this
      ensures Valid()
      ensures (View(), failure) == SaveDraft(old(View()), c, nonce)
    {
      ghost var before := View();
      var head := LockCurrentHead(c.provider);
      var savedRows := rows;
      if head.None? {
        if c.expected != 0 || c.revision != 1 {
          return Some(Conflict);
        }
      } else {
        var current := rows[head.value];
        if c.expected != current.revision || c.revision != current.revision + 1 {
          return Some(Conflict);
        }
        if c.id == head.value {
          return Some(ValidationError);
        }
        RetireHead(head.value);
      }
      if c.id in savedRows || RevisionTaken(savedRows, c.provider, c.revision) || nonce in nonces {
        rows := savedRows;
        return Some(Conflict);
      }
      rows := rows[c.id := Row(c.provider, c.sealed, c.revision, true)];
      nonces := nonces + {nonce};
      failure := None;
      SavedChains(before, c, nonce);
    }
  }

  lemma OneHead(rows: map<ConfigId, Row>, provider: Provider)
    requires Chained(rows, provider)
    ensures forall id: ConfigId :: IsHead(rows, provider, id) ==> Head(rows, provider) == Some(id)
    ensures Head(rows, provider).Some? ==> IsHead(rows, provider, Head(rows, provider).value)
  {
    var n: nat :| Chain(rows, provider, n);
    HeadIsLast(rows, provider, n);
  }

  lemma SavedChains(d: Db, c: SaveCommand, nonce: Uuid)
    requires forall p :: Chained(d.rows, p)
    requires SaveDraft(d, c, nonce).1.None?
    ensures forall p :: Chained(SaveDraft(d, c, nonce).0.rows, p)
  {
    var rows, rows' := d.rows, SaveDraft(d, c, nonce).0.rows;
    var row := Row(c.provider, c.sealed, c.revision, true);
    SaveDraftAppends(d, c, nonce);
    assert Chained(rows, c.provider);
    var n: nat :| Chain(rows, c.provider, n);
    HeadIsLast(rows, c.provider, n);
    hide SaveDraft, Chain, Appends, SameRows;
    AppendKeepsChain(rows, rows', c.provider, c.id, row, n);
    AppendedRows(rows, rows', c.provider, c.id, row);
    forall p
      ensures Chained(rows', p)
    {
      if p != c.provider {
        assert Chained(rows, p);
        var m: nat :| Chain(rows, p, m);
        SameRowsSameChain(rows, rows', p, m);
      }
    }
  }
}
