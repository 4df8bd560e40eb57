/**
 What a run of test_and_activate calls owes to its steps: nothing is committed or installed that was not
 tested by its own call, a failed test changes nothing, and a successful call ends with its model active.
 */
module ModelControlRuns {
  import opened Common
  import opened ModelControl
  import opened ModelControlTheorems

  // ---------------------------------------------------------------------------
  // The steps behind a call

  predicate Untouched(s: State, t: nat) {
    t !in s.calls && t !in s.flights && t !in s.candidates
  }

  predicate Transferred(s: State, t: nat) {
    t in s.candidates && s.candidates[t].transfers > 0
  }

  /** Everything a call got to, it got to by the steps that lead there. */
  ghost predicate CallTraced(steps: seq<Step>, s: State, t: nat) {
    && (Untouched(s, t) <==> t !in s.calls)
    && (t in s.calls ==> Begin(t, s.calls[t].provider, s.calls[t].head.revision) in steps)
    && (t !in s.calls || At(s, t, Verifying) ==> Verified(t, true) !in steps && Verified(t, false) !in steps)
    && (At(s, t, WaitingForLock) || InSection(s, t) || t in s.flights || Transferred(s, t) ==> Verified(t, true) in steps)
    && (t in s.flights || Transferred(s, t) ==> Loaded(t, false) in steps)
    && (Transferred(s, t) ==> t in s.flights && s.flights[t].status.Committed? && At(s, t, Done))
    && (At(s, t, Recording) ==> Verified(t, false) in steps)
    && (Verified(t, false) in steps ==>
          Verified(t, true) !in steps && (At(s, t, Recording) || At(s, t, Closing) || At(s, t, Done)))
  }

  ghost predicate Traced(steps: seq<Step>, s: State) {
    forall t: nat :: CallTraced(steps, s, t)
  }

  lemma StartTraced(heads: map<Provider, Head>, pointer: Option<Active>, built: bool)
    ensures Traced([], Restored(heads, pointer, built))
  {
  }

  /** A step of another call leaves this one where it was. */
  lemma OtherCallTraced(steps: seq<Step>, s: State, a: Step, t: nat)
    requires CallTraced(steps, s, t) && Next(s, a).Some?
    requires a.Save? || a.StopSlot? || a.call != t
    ensures CallTraced(steps + [a], Next(s, a).value, t)
  {
    SparesCall(s, a, t);
    hide Next;
  }

  predicate SameCall(s: State, u: State, t: nat) {
    && (t in s.calls <==> t in u.calls) && (t in s.calls ==> u.calls[t] == s.calls[t])
    && (t in s.flights <==> t in u.flights) && (t in s.flights ==> u.flights[t] == s.flights[t])
    && (t in s.candidates <==> t in u.candidates) && (t in s.candidates ==> u.candidates[t] == s.candidates[t])
  }

  lemma SparesCall(s: State, a: Step, t: nat)
    requires Next(s, a).Some? && (a.Save? || a.StopSlot? || a.call != t)
    ensures SameCall(s, Next(s, a).value, t)
  {
    hide Commits, Accepts, ValidPointer, Degrade, Install;
  }

  lemma BegunTraced(steps: seq<Step>, s: State, a: Step, t: nat)
    requires CallTraced(steps, s, t) && Next(s, a).Some? && a.Begin? && a.call == t
    ensures CallTraced(steps + [a], Next(s, a).value, t)
  {
  }

  lemma TestTraced(steps: seq<Step>, s: State, a: Step, t: nat)
    requires CallTraced(steps, s, t) && Next(s, a).Some? && Inv(s)
    requires (a.Verified? || a.Recorded? || a.AcquireLock? || a.Loaded?) && a.call == t
    ensures CallTraced(steps + [a], Next(s, a).value, t)
  {
    if a.Verified? {
      NoFlightYet(s, t);
    }
    hide Inv;
  }

  lemma CommitTraced(steps: seq<Step>, s: State, a: Step, t: nat)
    requires CallTraced(steps, s, t) && Next(s, a).Some?
    requires (a.Execute? || a.AbortFlight? || a.Reply? || a.LoseReply? || a.Cancel? || a.CandidateClosed?) && a.call == t
    ensures CallTraced(steps + [a], Next(s, a).value, t)
  {
  }

  lemma StepTraced(steps: seq<Step>, s: State, a: Step)
    requires Traced(steps, s) && Inv(s) && Next(s, a).Some?
    ensures Traced(steps + [a], Next(s, a).value)
  {
    hide Inv, CallTraced, Next;
    forall t: nat
      ensures CallTraced(steps + [a], Next(s, a).value, t)
    {
      if a.Save? || a.StopSlot? || a.call != t {
        OtherCallTraced(steps, s, a, t);
      } else if a.Begin? {
        BegunTraced(steps, s, a, t);
      } else if a.Verified? || a.Recorded? || a.AcquireLock? || a.Loaded? {
        TestTraced(steps, s, a, t);
      } else {
        CommitTraced(steps, s, a, t);
      }
    }
  }

  lemma {:induction false} RunLast(s: State, steps: seq<Step>)
    requires steps != [] && Run(s, steps).Some?
    ensures Run(s, steps[..|steps| - 1]).Some?
    ensures Next(Run(s, steps[..|steps| - 1]).value, steps[|steps| - 1]) == Run(s, steps)
    decreases |steps|
  {
    hide Next;
    if |steps| > 1 {
      RunLast(Next(s, steps[0]).value, steps[1..]);
      assert steps[1..][..|steps| - 2] == steps[..|steps| - 1][1..];
    } else {
      assert steps[..0] == [] && steps[1..] == [];
    }
  }

  /** A process that restored what it found. */
  datatype Origin = Origin(heads: map<Provider, Head>, pointer: Option<Active>, built: bool)

  function Start(o: Origin): State {
    Restored(o.heads, o.pointer, o.built)
  }

  ghost predicate Leads(o: Origin, steps: seq<Step>, s: State) {
    (o.pointer.Some? ==> o.pointer.value.version >= 1) && Run(Start(o), steps) == Some(s)
  }

  lemma LeadsInv(o: Origin, steps: seq<Step>, s: State)
    requires Leads(o, steps, s)
    ensures Inv(s) && Reachable(s)
  {
    hide Inv;
    RestoredInv(o.heads, o.pointer, o.built);
    RunKeeps(Start(o), steps);
  }

  lemma {:induction false} RunTraced(o: Origin, steps: seq<Step>, s: State)
    requires Leads(o, steps, s)
    ensures Traced(steps, s)
    decreases |steps|
  {
    hide Inv, Traced, Next;
    if steps == [] {
      StartTraced(o.heads, o.pointer, o.built);
    } else {
      var n := |steps| - 1;
      RunLast(Start(o), steps);
      var before := Run(Start(o), steps[..n]).value;
      hide Run;
      RunTraced(o, steps[..n], before);
      LeadsInv(o, steps[..n], before);
      StepTraced(steps[..n], before, steps[n]);
      assert steps == steps[..n] + [steps[n]];
    }
  }

  // ---------------------------------------------------------------------------
  // Tested first

  /**
   A call waits for the lock, holds it, has a commit on its way or hands its candidate over only after its own
   test succeeded, and it tests the revision it was asked for.
   */
  lemma TestedFirst(o: Origin, steps: seq<Step>, s: State, t: nat)
    requires Leads(o, steps, s) && t in s.calls
    requires At(s, t, WaitingForLock) || s.holder == Some(t) || t in s.flights || Transferred(s, t)
    ensures Verified(t, true) in steps && Verified(t, false) !in steps
    ensures Begin(t, s.calls[t].provider, s.calls[t].head.revision) in steps
    ensures t in s.flights ==> Loaded(t, false) in steps
  {
    hide Inv;
    RunTraced(o, steps, s);
    LeadsInv(o, steps, s);
    LockIsSection(s, t);
    assert CallTraced(steps, s, t);
  }

  /** A call whose test failed never holds the lock, commits nothing, hands nothing over, and moves nothing. */
  lemma FailedTestMovesNothing(o: Origin, steps: seq<Step>, s: State, t: nat, a: Step)
    requires Leads(o, steps, s) && Verified(t, false) in steps
    ensures t in s.calls && s.holder != Some(t) && t !in s.flights && !Transferred(s, t)
    ensures !a.Save? && !a.StopSlot? && a.call == t && Next(s, a).Some? ==>
              Next(s, a).value.pointer == s.pointer && Next(s, a).value.slot == s.slot
              && Next(s, a).value.holder == s.holder
  {
    hide Inv;
    RunTraced(o, steps, s);
    LeadsInv(o, steps, s);
    LockIsSection(s, t);
    assert CallTraced(steps, s, t);
    hide Leads, Traced;
  }

  /** What a call committed: a revision that was asked for and tested, over the version it expected. */
  ghost predicate CommittedBy(steps: seq<Step>, s: State, t: nat, p: Active) {
    && t in s.flights && s.flights[t].status == FlightStatus.Committed(p)
    && t in s.calls && p.config == s.calls[t].head.config && p.revision == s.calls[t].head.revision
    && Begin(t, s.calls[t].provider, p.revision) in steps
    && Verified(t, true) in steps && Execute(t) in steps
  }

  /** Where the pointer and the installed model come from. */
  ghost predicate Sourced(o: Origin, steps: seq<Step>, s: State) {
    && (s.pointer == o.pointer || (s.pointer.Some? && exists t: nat :: CommittedBy(steps, s, t, s.pointer.value)))
    && (s.slot.active.None? || s.slot.active == Start(o).slot.active
        || exists t: nat :: CommittedBy(steps, s, t, s.slot.active.value) && Transferred(s, t))
  }

  /** Commits stay committed, and nothing a call handed over is taken back. */
  lemma CommittedStays(steps: seq<Step>, s: State, a: Step, t: nat, p: Active)
    requires CommittedBy(steps, s, t, p) && Next(s, a).Some? && Inv(s)
    ensures CommittedBy(steps + [a], Next(s, a).value, t, p)
    ensures Transferred(s, t) ==> Transferred(Next(s, a).value, t)
  {
    assert !At(s, t, Loading);
    hide Inv;
    if a.Save? || a.StopSlot? || a.call != t {
      SparesCall(s, a, t);
      hide Next;
    } else {
      OwnCommitStays(s, a, t);
      hide Next;
    }
  }

  lemma OwnCommitStays(s: State, a: Step, t: nat)
    requires t in s.calls && t in s.flights && s.flights[t].status.Committed? && !At(s, t, Loading)
    requires Next(s, a).Some? && !a.Save? && !a.StopSlot? && a.call == t
    ensures var u := Next(s, a).value; t in u.flights && u.flights[t] == s.flights[t]
    ensures var u := Next(s, a).value; t in u.calls && u.calls[t].head == s.calls[t].head && u.calls[t].provider == s.calls[t].provider
    ensures Transferred(s, t) ==> Transferred(Next(s, a).value, t)
  {
    hide Commits, Accepts, ValidPointer, Degrade, Install;
  }

  lemma PointerSource(steps: seq<Step>, s: State, a: Step)
    requires Inv(s) && Traced(steps, s) && Next(s, a).Some?
    ensures
      var u := Next(s, a).value;
      u.pointer == s.pointer || (u.pointer.Some? && a.Execute? && CommittedBy(steps + [a], u, a.call, u.pointer.value))
  {
    if a.Execute? && a.call in s.flights {
      assert FlightHolds(s, a.call) && CallTraced(steps, s, a.call);
      assert HeadHolds(s.heads, s.calls[a.call].provider, s.calls[a.call].head);
    }
    hide Inv, Traced;
  }

  lemma SlotSource(o: Origin, steps: seq<Step>, s: State, a: Step)
    requires Inv(s) && Traced(steps, s) && ExecutedFlights(steps, s) && Next(s, a).Some?
    ensures
      var u := Next(s, a).value;
      u.slot.active == s.slot.active || u.slot.active.None?
      || (a.Reply? && CommittedBy(steps + [a], u, a.call, u.slot.active.value) && Transferred(u, a.call))
  {
    if a.Reply? && a.call in s.flights {
      assert FlightHolds(s, a.call) && CallTraced(steps, s, a.call);
    }
    hide Inv, Traced;
  }

  ghost predicate ExecutedFlights(steps: seq<Step>, s: State) {
    forall t :: t in s.flights && s.flights[t].status.Committed? ==> Execute(t) in steps
  }

  lemma ExecutedNext(steps: seq<Step>, s: State, a: Step)
    requires ExecutedFlights(steps, s) && Next(s, a).Some?
    ensures ExecutedFlights(steps + [a], Next(s, a).value)
  {
  }

  /**
   Every configuration the active row holds, unless it was there from the start, and every model the slot has been
   given since was committed by a call that was asked for this revision and whose own test had succeeded.
   */
  lemma {:induction false} OnlyTestedServe(o: Origin, steps: seq<Step>, s: State)
    requires Leads(o, steps, s)
    ensures Sourced(o, steps, s) && ExecutedFlights(steps, s)
    decreases |steps|
  {
    if steps != [] {
      hide Inv, Next, CommittedBy, Traced, ExecutedFlights, Sourced;
      var n := |steps| - 1;
      RunLast(Start(o), steps);
      var before := Run(Start(o), steps[..n]).value;
      hide Run;
      OnlyTestedServe(o, steps[..n], before);
      RunTraced(o, steps[..n], before);
      LeadsInv(o, steps[..n], before);
      assert steps == steps[..n] + [steps[n]];
      SourceNext(o, steps[..n], before, steps[n]);
    }
  }

  lemma SourceNext(o: Origin, steps: seq<Step>, s: State, a: Step)
    requires Inv(s) && Traced(steps, s) && ExecutedFlights(steps, s) && Sourced(o, steps, s) && Next(s, a).Some?
    ensures Sourced(o, steps + [a], Next(s, a).value) && ExecutedFlights(steps + [a], Next(s, a).value)
  {
    hide Inv, Next, CommittedBy, Traced, Transferred, ExecutedFlights;
    ExecutedNext(steps, s, a);
    PointerSource(steps, s, a);
    SlotSource(o, steps, s, a);
    forall t: nat, p: Active | CommittedBy(steps, s, t, p)
      ensures CommittedBy(steps + [a], Next(s, a).value, t, p) && (Transferred(s, t) ==> Transferred(Next(s, a).value, t))
    {
      CommittedStays(steps, s, a, t, p);
    }
  }

  // ---------------------------------------------------------------------------
  // When the slot loses its model

  /** The slot serves until it is stopped, and a restored model is lost by a stop or a lost reply only. */
  lemma {:induction false} LostByLostReplies(o: Origin, steps: seq<Step>, s: State)
    requires Leads(o, steps, s)
    ensures s.slot.serving <==> StopSlot !in steps
    ensures o.built && StopSlot !in steps && (forall a :: a in steps ==> !a.LoseReply?) ==> s.slot.active.Some?
    decreases |steps|
  {
    if steps != [] {
      var n := |steps| - 1;
      RunLast(Start(o), steps);
      var before := Run(Start(o), steps[..n]).value;
      hide Run, Inv, Next;
      LostByLostReplies(o, steps[..n], before);
      LeadsInv(o, steps[..n], before);
      assert steps == steps[..n] + [steps[n]];
      SlotNext(before, steps[n]);
    }
  }

  /** The newest version installed is the one of the model that serves, whenever one does; at first there is none. */
  lemma {:induction false} LastIsNewest(o: Origin, steps: seq<Step>, s: State)
    requires Leads(o, steps, s)
    ensures s.slot.active.Some? ==> s.slot.last == s.slot.active.value.version
    ensures !o.built && (forall t: nat :: !Transferred(s, t)) ==> s.slot.last == -1
    ensures s.slot.last >= Start(o).slot.last
    decreases |steps|
  {
    if steps != [] {
      var n := |steps| - 1;
      RunLast(Start(o), steps);
      var before := Run(Start(o), steps[..n]).value;
      hide Run, Inv, Next, Transferred;
      LastIsNewest(o, steps[..n], before);
      LeadsInv(o, steps[..n], before);
      LastNext(before, steps[n]);
    }
  }

  lemma LastNext(s: State, a: Step)
    requires Inv(s) && Next(s, a).Some? && (s.slot.active.Some? ==> s.slot.last == s.slot.active.value.version)
    ensures
      var u := Next(s, a).value;
      && (u.slot.active.Some? ==> u.slot.last == u.slot.active.value.version)
      && u.slot.last >= s.slot.last
      && (forall t: nat :: Transferred(s, t) ==> Transferred(u, t))
      && (u.slot.last == s.slot.last || exists t: nat :: Transferred(u, t))
  {
    hide Inv, Next, Transferred;
    SlotLastNext(s, a);
    TransfersNext(s, a);
  }

  lemma SlotLastNext(s: State, a: Step)
    requires Next(s, a).Some? && (s.slot.active.Some? ==> s.slot.last == s.slot.active.value.version)
    ensures
      var u := Next(s, a).value;
      && (u.slot.active.Some? ==> u.slot.last == u.slot.active.value.version)
      && u.slot.last >= s.slot.last
      && (u.slot.last == s.slot.last || (a.Reply? && Transferred(u, a.call)))
  {
    hide Commits, ValidPointer;
  }

  lemma TransfersNext(s: State, a: Step)
    requires Inv(s) && Next(s, a).Some?
    ensures forall t: nat :: Transferred(s, t) ==> Transferred(Next(s, a).value, t)
  {
    CandidatesAreCalls(s);
    hide Inv, Commits, ValidPointer, Accepts;
  }

  lemma CandidatesAreCalls(s: State)
    requires Inv(s)
    ensures forall t :: t in s.candidates ==> t in s.calls
  {
  }

  lemma SlotNext(s: State, a: Step)
    requires Reachable(s) && Next(s, a).Some?
    ensures Next(s, a).value.slot.serving <==> s.slot.serving && !a.StopSlot?
    ensures s.slot.active.Some? && s.slot.serving && !a.StopSlot? && !a.LoseReply? ==> Next(s, a).value.slot.active.Some?
  {
    if a.Reply? && At(s, a.call, Committing) && a.call in s.flights && s.flights[a.call].status.Committed? {
      NeverStale(s, a.call);
      CommitIsValid(s, a.call);
    }
    hide Reachable, Commits, Accepts, ValidPointer;
  }

  lemma CommitIsValid(s: State, t: nat)
    requires Reachable(s) && t in s.flights && s.flights[t].status.Committed?
    ensures t in s.calls && ValidPointer(s, t, s.flights[t].status.pointer)
  {
    ReachableInv(s);
    assert FlightHolds(s, t);
  }

  /** What restoring a built model leaves agrees with the pointer, and is available. */
  lemma RestoreAgrees(o: Origin)
    requires o.built && (o.pointer.Some? ==> o.pointer.value.version >= 1)
    ensures Start(o).slot.active.Some? && Start(o).slot.serving && Start(o).pointer == o.pointer && Start(o).holder.None?
    ensures Agrees(Start(o).slot.active.value, o.pointer)
  {
  }

  // ---------------------------------------------------------------------------
  // What a commit decides

  /**
   The transaction commits exactly if the configuration the call tested is still its provider's current one and
   the version is the expected one; then the active row holds it one version on, and otherwise nothing moves.
   */
  lemma CommitExactly(s: State, t: nat)
    requires Reachable(s) && t in s.flights && s.flights[t].status.Waiting?
    ensures t in s.calls && Next(s, Execute(t)).Some?
    ensures
      var c, u := s.calls[t], Next(s, Execute(t)).value;
      var commits := c.provider in s.heads && s.heads[c.provider] == c.head && Version(s) == s.flights[t].expected;
      && t in u.flights && (u.flights[t].status.Committed? <==> commits)
      && u.pointer == (if commits then Some(Active(c.head.config, c.head.revision, Version(s) + 1)) else s.pointer)
      && u.slot == s.slot && u.calls == s.calls && u.heads == s.heads && u.holder == s.holder
  {
    ReachableInv(s);
    assert FlightHolds(s, t);
    assert HeadHolds(s.heads, s.calls[t].provider, s.calls[t].head);
    hide Inv;
  }

  /** A refused commit leaves the model that serves and the pointer alone, frees the lock and closes the candidate. */
  lemma RefusedMovesNothing(s: State, t: nat)
    requires Reachable(s) && At(s, t, Committing) && t in s.flights && s.flights[t].status.Refused?
    ensures Next(s, Reply(t)).Some?
    ensures
      var u := Next(s, Reply(t)).value;
      u.slot == s.slot && u.pointer == s.pointer && u.holder.None? && At(u, t, Closing)
  {
    ReachableInv(s);
    assert InSection(s, t) && CandidateHolds(s, t);
    hide Inv;
  }

  /** A save takes effect exactly over the revision it expects, and then the provider's configuration is the new one. */
  lemma SaveExactly(s: State, provider: Provider, expected: nat, config: Uuid)
    ensures
      var u := Next(s, Save(provider, expected, config)).value;
      var revision := if provider in s.heads then s.heads[provider].revision else 0;
      && u == s.(heads := u.heads)
      && (expected != revision ==> u.heads == s.heads)
      && (expected == revision ==>
            provider in u.heads && u.heads[provider] == Head(config, revision + 1)
            && forall p :: p != provider ==> (p in u.heads <==> p in s.heads) && (p in s.heads ==> u.heads[p] == s.heads[p]))
  {
  }

  // ---------------------------------------------------------------------------
  // Whole calls

  lemma Then(s: State, a: Step, rest: seq<Step>, u: State)
    requires Next(s, a).Some? && Run(Next(s, a).value, rest) == Some(u)
    ensures Run(s, [a] + rest) == Some(u)
  {
    hide Next;
    assert ([a] + rest)[1..] == rest;
  }

  lemma NoSteps(s: State)
    ensures Run(s, []) == Some(s)
  {
  }

  lemma NewCall(s: State, t: nat)
    requires Reachable(s) && t !in s.calls
    ensures t !in s.flights
  {
    ReachableInv(s);
    assert t in s.flights ==> FlightHolds(s, t);
  }

  /** With the lock free, a call whose test succeeds gets its configuration active, in the database and in the slot. */
  lemma SuccessfulCall(s: State, t: nat, provider: Provider) returns (steps: seq<Step>, u: State)
    requires Reachable(s) && s.holder.None? && t !in s.calls && provider in s.heads && s.slot.serving
    ensures Run(s, steps) == Some(u)
    ensures u.pointer == Some(Active(s.heads[provider].config, s.heads[provider].revision, Version(s) + 1))
    ensures u.slot.active == u.pointer && u.holder.None? && At(u, t, Done)
    ensures t in u.candidates && u.candidates[t] == Candidate(1, 0)
  {
    SlotBehind(s);
    NewCall(s, t);
    hide Reachable;
    var a := Begin(t, provider, s.heads[provider].revision);
    var s1 := Next(s, a).value;
    var s2 := Next(s1, Verified(t, true)).value;
    var s3 := Next(s2, AcquireLock(t)).value;
    var tail;
    tail, u := CommitsAndInstalls(s3, t);
    hide Next, Run;
    Then(s2, AcquireLock(t), tail, u);
    Then(s1, Verified(t, true), [AcquireLock(t)] + tail, u);
    steps := [a] + ([Verified(t, true)] + ([AcquireLock(t)] + tail));
    Then(s, a, steps[1..], u);
  }

  lemma SlotBehind(s: State)
    requires Reachable(s)
    ensures s.slot.last <= Version(s)
  {
    ReachableInv(s);
  }

  lemma CommitsAndInstalls(s: State, t: nat) returns (steps: seq<Step>, u: State)
    requires At(s, t, Loading) && s.holder == Some(t) && s.slot.serving && s.slot.last <= Version(s)
    requires s.calls[t].provider in s.heads && s.heads[s.calls[t].provider] == s.calls[t].head
    requires t in s.candidates && s.candidates[t] == Candidate(0, 0)
    ensures Run(s, steps) == Some(u)
    ensures u.pointer == Some(Active(s.calls[t].head.config, s.calls[t].head.revision, Version(s) + 1))
    ensures u.slot.active == u.pointer && u.holder.None? && At(u, t, Done)
    ensures t in u.candidates && u.candidates[t] == Candidate(1, 0)
  {
    var s1 := Next(s, Loaded(t, false)).value;
    var s2 := Next(s1, Execute(t)).value;
    u := Next(s2, Reply(t)).value;
    hide Next, Run;
    NoSteps(u);
    Then(s2, Reply(t), [], u);
    Then(s1, Execute(t), [Reply(t)] + [], u);
    steps := [Loaded(t, false)] + ([Execute(t)] + ([Reply(t)] + []));
    Then(s, Loaded(t, false), steps[1..], u);
  }

  /** A call whose test fails ends with its candidate closed and everything else as it was, whoever holds the lock. */
  lemma FailedCall(s: State, t: nat, provider: Provider) returns (steps: seq<Step>, u: State)
    requires Reachable(s) && t !in s.calls && provider in s.heads
    ensures Run(s, steps) == Some(u) && Verified(t, false) in steps
    ensures u == s.(calls := u.calls, candidates := u.candidates) && At(u, t, Done)
    ensures t in u.candidates && u.candidates[t] == Candidate(0, 1)
  {
    NotHolding(s, t);
    hide Reachable;
    var a := Begin(t, provider, s.heads[provider].revision);
    var s1 := Next(s, a).value;
    var s2 := Next(s1, Verified(t, false)).value;
    var s3 := Next(s2, Recorded(t)).value;
    u := Next(s3, CandidateClosed(t)).value;
    hide Next, Run;
    NoSteps(u);
    Then(s3, CandidateClosed(t), [], u);
    Then(s2, Recorded(t), [CandidateClosed(t)] + [], u);
    Then(s1, Verified(t, false), [Recorded(t)] + ([CandidateClosed(t)] + []), u);
    steps := [a] + ([Verified(t, false)] + ([Recorded(t)] + ([CandidateClosed(t)] + [])));
    Then(s, a, steps[1..], u);
  }

  lemma NotHolding(s: State, t: nat)
    requires Reachable(s) && t !in s.calls
    ensures s.holder != Some(t)
  {
    LockIsSection(s, t);
  }

  /** A call cannot be begun for a revision that is not the provider's current one, nor for an unknown provider. */
  lemma BeginsExactly(s: State, t: nat, provider: Provider, revision: nat)
    ensures Next(s, Begin(t, provider, revision)).Some? <==>
            t !in s.calls && provider in s.heads && s.heads[provider].revision == revision
  {
  }
}
