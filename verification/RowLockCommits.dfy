/**
 What the interleaved transactions leave behind: the committed rows change at commits only, each commit
 changes exactly what its transaction is for, and every transaction whose rows are free can get there.
 */
module RowLockCommits {
  import opened Common
  import opened RowLocks

  // ---------------------------------------------------------------------------
  // Commits

  /** The committed rows change at commits and with new skills only. */
  lemma OnlyCommitsPublish(s: State, a: Step)
    requires Next(s, a).Some? && !a.Commit? && !a.CreateSkill?
    ensures Next(s, a).value.skills == s.skills && Next(s, a).value.active == s.active
  {
    hide MayOwn, MayShare, Unarchived, LockOf;
  }

  /** A new skill is unarchived at its first revision, and an existing one is never created again. */
  lemma CreationPublishes(s: State, skill: Uuid, revision: Uuid)
    ensures Next(s, CreateSkill(skill, revision)).Some? <==> skill !in s.skills
    ensures skill !in s.skills ==>
              Next(s, CreateSkill(skill, revision)).value == s.(skills := s.skills[skill := Row(false, revision)])
  {
  }

  /** A committing archive archives its skill at the revision it was at, and touches nothing else. */
  lemma ArchiveCommits(s: State, tx: Tx)
    requires Reachable(s) && tx in s.running && s.running[tx].Archive? && Next(s, Commit(tx)).Some?
    ensures
      var skill, t := s.running[tx].skill, Next(s, Commit(tx)).value;
      && skill in s.skills && !s.skills[skill].archived
      && t.skills == s.skills[skill := Row(true, s.skills[skill].current)]
      && t.active == s.active && skill !in t.active
  {
    ReachableInv(s);
    assert TransactionHolds(s, tx, s.running[tx]);
  }

  /** A committing activation puts its own revisions in place, all of unarchived skills, and touches no other row. */
  lemma ActivationPublishes(s: State, tx: Tx)
    requires Reachable(s) && tx in s.running && s.running[tx].Activation? && Next(s, Commit(tx)).Some?
    ensures
      var items, t := s.running[tx].items, Next(s, Commit(tx)).value;
      && t.active == items && t.skills.Keys == s.skills.Keys
      && (forall k :: k in items ==> Unarchived(s, k) && t.skills[k] == Row(false, items[k]))
      && (forall k :: k in s.skills && k !in items ==> t.skills[k] == s.skills[k])
  {
    ReachableInv(s);
    assert TransactionHolds(s, tx, s.running[tx]);
    forall k | k in s.running[tx].items
      ensures Unarchived(s, k)
    {
      assert Shares(s, k, tx);
    }
  }

  /** A committing upload moves the current revision of its unarchived skill or nothing at all. */
  lemma UploadPublishes(s: State, tx: Tx)
    requires Reachable(s) && tx in s.running && s.running[tx].Upload? && Next(s, Commit(tx)).Some?
    ensures
      var u, t := s.running[tx], Next(s, Commit(tx)).value;
      && Unarchived(s, u.target) && t.active == s.active
      && t.skills == if u.uploadStage.writes then s.skills[u.target := Row(false, u.revision)] else s.skills
  {
    ReachableInv(s);
    assert TransactionHolds(s, tx, s.running[tx]);
  }

  /** Whoever commits or aborts is gone with all its locks; the locks of the others stay as they were. */
  lemma EndReleases(s: State, tx: Tx, other: Tx, skill: Uuid)
    ensures tx !in End(s, tx).running && !Owns(End(s, tx), skill, tx) && !Shares(End(s, tx), skill, tx)
    ensures End(s, tx).advisory != Some(tx)
    ensures other != tx ==>
              (Owns(End(s, tx), skill, other) <==> Owns(s, skill, other))
              && (Shares(End(s, tx), skill, other) <==> Shares(s, skill, other))
  {
  }

  // ---------------------------------------------------------------------------
  // The law over runs

  ghost predicate CommitsArchive(steps: seq<Step>, i: nat, skill: Uuid) {
    && i < |steps| && steps[i].Commit? && Run(Initial(), steps[..i]).Some?
    && var s := Run(Initial(), steps[..i]).value;
       steps[i].tx in s.running && s.running[steps[i].tx].Archive? && s.running[steps[i].tx].skill == skill
  }

  /** The step commits an activation of the skill, or an upload to it. */
  ghost predicate CommitsUse(steps: seq<Step>, j: nat, skill: Uuid) {
    && j < |steps| && steps[j].Commit? && Run(Initial(), steps[..j]).Some?
    && var s := Run(Initial(), steps[..j]).value;
       steps[j].tx in s.running
       && match s.running[steps[j].tx]
          case Activation(items, _) => skill in items
          case Upload(target, _, _) => target == skill
          case Archive(_, _) => false
  }

  /** Once an archive of a skill has committed, no activation of it commits any more, and no upload to it. */
  lemma ArchivedNeverUsed(steps: seq<Step>, i: nat, j: nat, skill: Uuid)
    requires Run(Initial(), steps).Some? && i < j && CommitsArchive(steps, i, skill)
    ensures !CommitsUse(steps, j, skill)
  {
    if CommitsUse(steps, j, skill) {
      var s, u := Run(Initial(), steps[..i]).value, Run(Initial(), steps[..j]).value;
      var between := steps[i + 1..j];
      assert steps[..j] == steps[..i] + ([steps[i]] + between);
      RunSplits(Initial(), steps[..i], [steps[i]] + between);
      assert ([steps[i]] + between)[1..] == between;
      var t := Next(s, steps[i]).value;
      ReachedBy(steps[..i], s);
      ReachedBy(steps[..j], u);
      hide Run, Next;
      ArchiveCommits(s, steps[i].tx);
      AfterFirst(s, steps[i], between);
      ArchivedForever(t, between, skill);
      StepIsPossible(steps, j);
      UsesUnarchived(u, steps[j].tx, skill);
    }
  }

  lemma ReachedBy(steps: seq<Step>, s: State)
    requires Run(Initial(), steps) == Some(s)
    ensures Reachable(s)
  {
  }

  lemma AfterFirst(s: State, a: Step, rest: seq<Step>)
    requires Run(s, [a] + rest).Some?
    ensures Next(s, a).Some? && Run(Next(s, a).value, rest) == Run(s, [a] + rest)
  {
    hide Next;
    assert ([a] + rest)[1..] == rest;
  }

  lemma {:induction false} RunSplits(s: State, xs: seq<Step>, ys: seq<Step>)
    requires Run(s, xs + ys).Some?
    ensures Run(s, xs).Some? && Run(Run(s, xs).value, ys) == Run(s, xs + ys)
    decreases |xs|
  {
    hide Next;
    if xs == [] {
      assert xs + ys == ys;
    } else {
      assert (xs + ys)[1..] == xs[1..] + ys;
      RunSplits(Next(s, xs[0]).value, xs[1..], ys);
    }
  }

  lemma StepIsPossible(steps: seq<Step>, j: nat)
    requires Run(Initial(), steps).Some? && j < |steps|
    ensures Run(Initial(), steps[..j]).Some? && Next(Run(Initial(), steps[..j]).value, steps[j]).Some?
  {
    hide Next;
    assert steps == steps[..j] + ([steps[j]] + steps[j + 1..]);
    RunSplits(Initial(), steps[..j], [steps[j]] + steps[j + 1..]);
    AfterFirst(Run(Initial(), steps[..j]).value, steps[j], steps[j + 1..]);
  }

  lemma UsesUnarchived(s: State, tx: Tx, skill: Uuid)
    requires Reachable(s) && tx in s.running && Next(s, Commit(tx)).Some?
    requires (s.running[tx].Activation? && skill in s.running[tx].items) || (s.running[tx].Upload? && s.running[tx].target == skill)
    ensures Unarchived(s, skill)
  {
    hide Next;
    if s.running[tx].Activation? {
      ActivationPublishes(s, tx);
    } else {
      UploadPublishes(s, tx);
    }
  }

  // ---------------------------------------------------------------------------
  // Free rows are enough

  predicate Free(s: State, skill: Uuid) {
    LockOf(s, skill).owner.None? && LockOf(s, skill).sharers == {}
  }

  lemma Two(s: State, a: Step, rest: seq<Step>, u: State)
    requires Next(s, a).Some? && Run(Next(s, a).value, rest) == Some(u)
    ensures Run(s, [a] + rest) == Some(u)
  {
    hide Next;
    assert ([a] + rest)[1..] == rest;
  }

  lemma NoSteps(s: State)
    ensures Run(s, []) == Some(s)
  {
  }

  /** An unarchived skill outside the active set whose row is free can be archived. */
  lemma ArchiveCompletes(s: State, tx: Tx, skill: Uuid) returns (steps: seq<Step>)
    requires tx !in s.running && Unarchived(s, skill) && skill !in s.active && Free(s, skill)
    ensures Run(s, steps).Some? && Run(s, steps).value.active == s.active
    ensures Run(s, steps).value.skills == s.skills[skill := Row(true, s.skills[skill].current)]
  {
    var a := BeginArchive(tx, skill);
    var s1 := Next(s, a).value;
    var s2 := Next(s1, LockArchived(tx)).value;
    var tail, u := ArchiveFinishes(s2, tx, skill);
    hide Next, Run;
    Two(s1, LockArchived(tx), tail, u);
    steps := [a] + ([LockArchived(tx)] + tail);
    Two(s, a, steps[1..], u);
  }

  lemma ArchiveFinishes(s: State, tx: Tx, skill: Uuid) returns (steps: seq<Step>, u: State)
    requires tx in s.running && s.running[tx] == Archive(skill, ArchiveLocked) && skill in s.skills && skill !in s.active
    ensures Run(s, steps) == Some(u) && u.active == s.active
    ensures u.skills == s.skills[skill := s.skills[skill].(archived := true)]
  {
    var s3 := Next(s, ClearActive(tx)).value;
    var s4 := Next(s3, WriteArchived(tx)).value;
    u := Next(s4, Commit(tx)).value;
    hide Next, Run;
    NoSteps(u);
    Two(s4, Commit(tx), [], u);
    Two(s3, WriteArchived(tx), [Commit(tx)] + [], u);
    steps := [ClearActive(tx)] + ([WriteArchived(tx)] + ([Commit(tx)] + []));
    Two(s, ClearActive(tx), steps[1..], u);
  }

  /** An upload to an unarchived skill whose row is free can commit, and moves the current revision if it is not active. */
  lemma UploadCompletes(s: State, tx: Tx, skill: Uuid, revision: Uuid) returns (steps: seq<Step>)
    requires tx !in s.running && Unarchived(s, skill) && Free(s, skill)
    ensures Run(s, steps).Some? && Run(s, steps).value.active == s.active
    ensures Run(s, steps).value.skills == if skill in s.active then s.skills else s.skills[skill := Row(false, revision)]
  {
    var a := BeginUpload(tx, skill, revision);
    var s1 := Next(s, a).value;
    var s2 := Next(s1, LockUploaded(tx)).value;
    var s3 := Next(s2, WriteCurrent(tx)).value;
    var s4 := Next(s3, Commit(tx)).value;
    hide Next, Run;
    NoSteps(s4);
    Two(s3, Commit(tx), [], s4);
    Two(s2, WriteCurrent(tx), [Commit(tx)] + [], s4);
    Two(s1, LockUploaded(tx), [WriteCurrent(tx)] + ([Commit(tx)] + []), s4);
    steps := [a] + ([LockUploaded(tx)] + ([WriteCurrent(tx)] + ([Commit(tx)] + [])));
    Two(s, a, steps[1..], s4);
  }

  /** The share locks of an activation, one skill after the other. */
  lemma {:induction false} LocksAll(s: State, tx: Tx, items: map<Uuid, Uuid>, todo: set<Uuid>) returns (steps: seq<Step>)
    requires tx in s.running && s.running[tx] == Activation(items, Locking) && todo <= items.Keys
    requires forall k :: k in items ==> if k in todo then Free(s, k) else Shared(s, k, tx)
    ensures Run(s, steps).Some?
    ensures
      var t := Run(s, steps).value;
      t == s.(locks := t.locks) && forall k :: k in items ==> Shared(t, k, tx)
    decreases |todo|
  {
    if todo == {} {
      steps := [];
    } else {
      var k :| k in todo;
      var t := Share(s, k, tx);
      assert Next(s, LockShared(tx, k)) == Some(t);
      assert forall j :: j in items ==> if j in todo - {k} then Free(t, j) else Shared(t, j, tx);
      hide Next;
      var rest := LocksAll(t, tx, items, todo - {k});
      steps := [LockShared(tx, k)] + rest;
      assert steps[1..] == rest;
    }
  }

  /** Nobody but the transaction locks the row, and it shares it. */
  predicate Shared(s: State, skill: Uuid, tx: Tx) {
    LockOf(s, skill) == Lock({tx}, None)
  }

  /** With the advisory lock and its rows free, an activation of unarchived skills can commit. */
  lemma ActivationCompletes(s: State, tx: Tx, items: map<Uuid, Uuid>) returns (steps: seq<Step>)
    requires tx !in s.running && s.advisory.None?
    requires forall k :: k in items ==> Unarchived(s, k) && Free(s, k)
    ensures Run(s, steps).Some?
    ensures Run(s, steps).value.active == items
    ensures forall k :: k in s.skills ==>
              k in Run(s, steps).value.skills
              && Run(s, steps).value.skills[k] == if k in items then Row(false, items[k]) else s.skills[k]
  {
    var a := BeginActivation(tx, items);
    var s1 := Next(s, a).value;
    var locking := LocksAll(s1, tx, items, items.Keys);
    var s2 := Run(s1, locking).value;
    var tail, u := Commits(s2, tx, items);
    hide Next, Run;
    RunJoins(s1, locking, tail);
    steps := [a] + (locking + tail);
    Two(s, a, locking + tail, u);
  }

  lemma Commits(s: State, tx: Tx, items: map<Uuid, Uuid>) returns (steps: seq<Step>, u: State)
    requires tx in s.running && s.running[tx] == Activation(items, Locking)
    requires forall k :: k in items ==> Unarchived(s, k) && Shared(s, k, tx)
    ensures Run(s, steps) == Some(u) && u.active == items
    ensures forall k :: k in s.skills ==>
              k in u.skills && u.skills[k] == if k in items then Row(false, items[k]) else s.skills[k]
  {
    var s1 := Next(s, CheckArchived(tx)).value;
    var s2 := Next(s1, SyncCurrent(tx)).value;
    u := Next(s2, Commit(tx)).value;
    hide Next, Run;
    NoSteps(u);
    Two(s2, Commit(tx), [], u);
    Two(s1, SyncCurrent(tx), [Commit(tx)] + [], u);
    steps := [CheckArchived(tx)] + ([SyncCurrent(tx)] + ([Commit(tx)] + []));
    Two(s, CheckArchived(tx), steps[1..], u);
  }

  lemma {:induction false} RunJoins(s: State, xs: seq<Step>, ys: seq<Step>)
    requires Run(s, xs).Some?
    ensures Run(s, xs + ys) == Run(Run(s, xs).value, ys)
    decreases |xs|
  {
    hide Next;
    if xs == [] {
      assert xs + ys == ys;
    } else {
      assert (xs + ys)[1..] == xs[1..] + ys;
      RunJoins(Next(s, xs[0]).value, xs[1..], ys);
    }
  }

  /** A skill can be archived even while a late activation of it waits, which then ends without effect. */
  lemma ActivationOfArchivedEnds(s: State, tx: Tx, skill: Uuid)
    requires tx in s.running && s.running[tx].Activation? && s.running[tx].stage.Locking? && skill in s.running[tx].items
    requires skill in s.skills && s.skills[skill].archived && Next(s, CheckArchived(tx)).Some?
    ensures tx !in Next(s, CheckArchived(tx)).value.running
    ensures Next(s, CheckArchived(tx)).value.skills == s.skills && Next(s, CheckArchived(tx)).value.active == s.active
  {
  }
}
