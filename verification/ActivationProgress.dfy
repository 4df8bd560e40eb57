/**
 Runs a call or a restore can always take from where the protocol stands: a ready candidate is activated, a
 lost answer is made good, an invalid or abandoned candidate leaves the process as it was.
 */
module ActivationProgress {
  import opened Common
  import opened Registry
  import opened RegistryInvariants
  import opened Activation
  import opened ActivationInvariants
  import opened ActivationSteps
  import opened ActivationTheorems
  import opened ActivationOutcomes

  /** The process serves what the database points to, and the command names a new candidate over it. */
  ghost predicate Ready(s: State, c: Command) {
    && Reachable(s)
    && s.proc.phase.Idle? && !s.proc.degraded && !s.proc.draining && s.proc.slot.retired.None?
    && Consistent(s.proc.slot, s.db.pointer) && c.expected == Version(s.db)
    && c.setId in s.db.sets && s.db.sets[c.setId].state == Candidate
    && c.setId !in s.proc.directories
  }

  /** No event has the request id of the command. */
  ghost predicate NewRequest(db: Db, c: Command) {
    forall e :: e in db.events ==> e.ident.requestId != c.requestId && e.ident.nonce != c.requestId
  }

  /** There are such states and commands. */
  lemma ReadyReachable() returns (s: State)
    ensures Ready(s, COMMAND) && NewRequest(s.db, COMMAND) && AllUsable(s.db, s.db.sets[COMMAND.setId].items)
  {
    hide Reachable;
    s := ServingReachable();
  }

  lemma Go(s: State, a: Step, t: State, rest: seq<Step>)
    requires Next(s, a) == Some(t)
    ensures Exec(s, [a] + rest) == Exec(t, rest)
  {
    hide Next;
    assert ([a] + rest)[1..] == rest;
  }

  lemma Last(s: State, a: Step)
    ensures Exec(s, [a]) == Next(s, a)
  {
    hide Next;
    assert [a][1..] == [];
  }

  /** A call up to the preparation of its candidate. */
  function Prelude(c: Command): seq<Step> {
    [Call(c), ReadActive, Proceed(false), ReadCandidate, Proceed(false)]
  }

  function Under(s: State, p: Phase): State {
    s.(proc := s.proc.(lock := true, phase := p))
  }

  function PreparingOf(s: State, c: Command): State {
    s.(proc := Reserve(s.proc).(lock := true, phase := Preparing(c, s.db.pointer)))
  }

  lemma ReadyHolds(s: State, c: Command)
    requires Ready(s, c)
    ensures StateInv(s) && CanReserve(s.proc.slot) && s.proc.restored && s.proc.slot.accepting
    ensures !s.proc.stopped && !s.proc.lock
    ensures s.proc.phase.Idle? && !s.proc.degraded && !s.proc.draining && c.setId !in s.proc.directories
    ensures c.expected == Version(s.db) && c.setId in s.db.sets && s.db.sets[c.setId].state == Candidate
  {
    ReachableHolds(s);
    hide DbInv, SlotHolds, FloorHolds, Settled, Reachable, History;
  }

  lemma ReadyReads(s: State, c: Command, rest: seq<Step>)
    requires Ready(s, c)
    ensures Exec(s, [Call(c), ReadActive, Proceed(false)] + rest) == Exec(Under(s, CandidateReading(c, s.db.pointer)), rest)
  {
    hide Exec, Apply, MutationOf, AnswerStep, Reachable, Reserve, Consistent, RestoreReadingStep, RestoreReadStep, PreparingStep;
    hide CandidateReadingStep, CandidateReadStep, PolledStep, CommitRepliedStep, DropGeneration, CancelReservation;
    var active := s.db.pointer;
    var tail2 := [Proceed(false)] + rest;
    var tail1 := [ReadActive] + tail2;
    assert [Call(c), ReadActive, Proceed(false)] + rest == [Call(c)] + tail1;
    Go(s, Call(c), Under(s, Loading(c)), tail1);
    Go(Under(s, Loading(c)), ReadActive, Under(s, Loaded(c, active)), tail2);
    Go(Under(s, Loaded(c, active)), Proceed(false), Under(s, CandidateReading(c, active)), rest);
  }

  lemma ReadsCandidate(s: State, c: Command, active: Option<Pointer>)
    requires s.proc.phase == CandidateReading(c, active) && c.setId in s.db.sets && s.db.sets[c.setId].state == Candidate
    ensures Next(s, ReadCandidate) == Some(s.(proc := s.proc.(phase := CandidateRead(c, active))))
  {
    assert Next(s, ReadCandidate) == CoordinatorStep(s, ReadCandidate);
    assert CoordinatorStep(s, ReadCandidate) == CandidateReadingStep(s, c, active, ReadCandidate);
    hide Next, CoordinatorStep;
  }

  lemma Reserves(s: State, c: Command, active: Option<Pointer>)
    requires s.proc.phase == CandidateRead(c, active) && CanReserve(s.proc.slot)
    ensures Next(s, Proceed(false)) == Some(s.(proc := Reserve(s.proc).(phase := Preparing(c, active))))
  {
    assert Next(s, Proceed(false)) == CoordinatorStep(s, Proceed(false));
    assert CoordinatorStep(s, Proceed(false)) == CandidateReadStep(s, c, active, Proceed(false));
    hide Next, CoordinatorStep;
  }

  lemma ReadyReserves(s: State, c: Command, rest: seq<Step>)
    requires Ready(s, c)
    ensures Exec(Under(s, CandidateReading(c, s.db.pointer)), [ReadCandidate, Proceed(false)] + rest) == Exec(PreparingOf(s, c), rest)
  {
    hide StateInv, Exec, Next, Reachable;
    ReadyHolds(s, c);
    var active := s.db.pointer;
    var s1, s2 := Under(s, CandidateReading(c, active)), Under(s, CandidateRead(c, active));
    ReadsCandidate(s1, c, active);
    Reserves(s2, c, active);
    var tail := [Proceed(false)] + rest;
    assert [ReadCandidate, Proceed(false)] + rest == [ReadCandidate] + tail;
    Go(s1, ReadCandidate, s2, tail);
    Go(s2, Proceed(false), PreparingOf(s, c), rest);
  }

  /** A ready call gets to preparing its candidate. */
  lemma Prepares(s: State, c: Command, rest: seq<Step>)
    requires Ready(s, c)
    ensures Exec(s, Prelude(c) + rest) == Exec(PreparingOf(s, c), rest)
  {
    hide Exec, Ready, PreparingOf;
    var tail := [ReadCandidate, Proceed(false)] + rest;
    assert Prelude(c) + rest == [Call(c), ReadActive, Proceed(false)] + tail;
    ReadyReads(s, c, tail);
    ReadyReserves(s, c, rest);
  }

  lemma FindsValid(s: State, c: Command, active: Option<Pointer>)
    requires s.proc.phase == Preparing(c, active) && c.setId !in s.proc.directories
    ensures Next(s, FinishPrepare(true, true)) == Some(s.(sent := s.sent + {ActivateRequest(c)}, proc := Prepared(s.proc, c.setId).(phase := Committing(c, active))))
  {
    assert Next(s, FinishPrepare(true, true)) == CoordinatorStep(s, FinishPrepare(true, true));
    assert CoordinatorStep(s, FinishPrepare(true, true)) == PreparingStep(s, c, active, FinishPrepare(true, true));
    hide Next, CoordinatorStep;
  }

  lemma FindsInvalid(s: State, c: Command, active: Option<Pointer>)
    requires s.proc.phase == Preparing(c, active) && c.setId !in s.proc.directories
    ensures Next(s, FinishPrepare(true, false)) == Some(s.(sent := s.sent + {FailRequest(c, "skill_validation_failed")}, proc := Prepared(s.proc, c.setId).(phase := Marking(c, active, true))))
  {
    assert Next(s, FinishPrepare(true, false)) == CoordinatorStep(s, FinishPrepare(true, false));
    assert CoordinatorStep(s, FinishPrepare(true, false)) == PreparingStep(s, c, active, FinishPrepare(true, false));
    hide Next, CoordinatorStep;
  }

  lemma Abandons(s: State, c: Command, active: Option<Pointer>)
    requires s.proc.phase == Preparing(c, active)
    ensures Next(s, Cancel(false)) == Some(s.(proc := s.proc.(phase := Abandoned(c, active))))
  {
    assert Next(s, Cancel(false)) == CoordinatorStep(s, Cancel(false));
    assert CoordinatorStep(s, Cancel(false)) == PreparingStep(s, c, active, Cancel(false));
    hide Next, CoordinatorStep;
  }

  lemma FinishesAbandoned(s: State, c: Command, active: Option<Pointer>, valid: bool)
    requires s.proc.phase == Abandoned(c, active) && c.setId !in s.proc.directories
    ensures Next(s, FinishPrepare(true, valid)) == Some(s.(proc := Prepared(s.proc, c.setId).(phase := AbandonedDropping(c, active))))
  {
    assert Next(s, FinishPrepare(true, valid)) == CoordinatorStep(s, FinishPrepare(true, valid));
    assert CoordinatorStep(s, FinishPrepare(true, valid)) == AbandonedStep(s, c, active, FinishPrepare(true, valid));
    hide Next, CoordinatorStep;
  }

  /** Discarding the candidate from any phase that does so before it ends the call. */
  lemma Discards(s: State, c: Command, active: Option<Pointer>)
    requires s.proc.phase in {Dropping(c, active), AbandonedDropping(c, active), CommitDropping(c, active)}
    ensures Next(s, RemoveDirectory(true)) == Some(s.(proc := Release(CancelReservation(DropGeneration(s.proc, c.setId, true)))))
  {
    var a := RemoveDirectory(true);
    assert Next(s, a) == CoordinatorStep(s, a);
    assert CoordinatorStep(s, a) == DiscardStep(s, c, a);
    hide Next, CoordinatorStep;
  }

  lemma Resumes(s: State, c: Command, active: Option<Pointer>)
    requires s.proc.phase == Resuming(c, active)
    ensures Next(s, RemoveDirectory(true)) == Some(s.(proc := Release(AdmitRuns(CancelReservation(DropGeneration(s.proc, c.setId, true))))))
  {
    assert Next(s, RemoveDirectory(true)) == CoordinatorStep(s, RemoveDirectory(true));
    assert CoordinatorStep(s, RemoveDirectory(true)) == ResumingStep(s, c, RemoveDirectory(true));
    hide Next, CoordinatorStep;
  }

  lemma BeginsPoll(s: State, c: Command, active: Option<Pointer>)
    requires s.proc.phase == ReconcileTop(c, active) && !s.proc.draining
    ensures Next(s, Proceed(false)) == Some(s.(proc := s.proc.(phase := Polling(c, active))))
  {
    assert Next(s, Proceed(false)) == CoordinatorStep(s, Proceed(false));
    assert CoordinatorStep(s, Proceed(false)) == ReconcileTopStep(s, c, active, Proceed(false));
    hide Next, CoordinatorStep;
  }

  lemma StopsPolling(s: State, c: Command, active: Option<Pointer>)
    requires s.proc.phase == ReconcileTop(c, active) && s.proc.draining
    ensures Next(s, Proceed(false)) == Some(s.(proc := s.proc.(lock := false, phase := Idle, stopped := true)))
  {
    assert Next(s, Proceed(false)) == CoordinatorStep(s, Proceed(false));
    assert CoordinatorStep(s, Proceed(false)) == ReconcileTopStep(s, c, active, Proceed(false));
    hide Next, CoordinatorStep;
  }

  lemma Polls(s: State, c: Command, active: Option<Pointer>)
    requires s.proc.phase == Polling(c, active) && c.setId in s.db.sets
    ensures Next(s, Poll) == Some(s.(proc := s.proc.(phase := Polled(c, active, s.db.pointer, Some(s.db.sets[c.setId].state)))))
  {
    assert Next(s, Poll) == CoordinatorStep(s, Poll);
    assert CoordinatorStep(s, Poll) == PollingStep(s, c, active, Poll);
    hide Next, CoordinatorStep;
  }

  lemma Fences(s: State, c: Command, active: Option<Pointer>)
    requires s.proc.phase == Polled(c, active, active, Some(Candidate))
    ensures Next(s, Proceed(false)) == Some(s.(sent := s.sent + {FailRequest(c, "artifact_invalid")}, proc := s.proc.(phase := PollMarking(c, active))))
  {
    assert Next(s, Proceed(false)) == CoordinatorStep(s, Proceed(false));
    assert CoordinatorStep(s, Proceed(false)) == PolledStep(s, c, active, active, Some(Candidate), Proceed(false));
    hide Next, CoordinatorStep;
  }

  // ---------------------------------------------------------------------------
  // What the database answers

  lemma NewIsFresh(db: Db, c: Command, action: Action)
    requires NewRequest(db, c)
    ensures Admit(db, action, SetTarget(c.setId), IdentOf(c)) == Fresh
  {
    assert forall e :: e in db.events ==> !Matches(e, action, SetTarget(c.setId), c.actor, c.requestId);
    assert !NonceUsed(db.events, c.requestId);
    hide Matches, NonceUsed;
  }

  /** A new request for a usable candidate over the version it expects becomes the next activation. */
  lemma NewActivates(db: Db, c: Command)
    requires Inv(db) && NewRequest(db, c) && c.expected == Version(db)
    requires c.setId in db.sets && db.sets[c.setId].state == Candidate && AllUsable(db, db.sets[c.setId].items)
    ensures
      var (db', out) := RunActivate(db, c, true);
      && out == Done(c.setId, c.expected + 1)
      && db'.pointer == Some(Pointer(c.setId, PreviousOf(db.pointer), c.expected + 1))
      && c.setId in db'.sets && db'.sets[c.setId].state == Active
  {
    NewIsFresh(db, c, ActivateSet);
    PointedIsActive(db);
    hide Admit, AllUsable, SyncCurrent, Inv;
  }

  lemma PointedIsActive(db: Db)
    requires Inv(db)
    ensures db.pointer.Some? ==> PointedSetIsActive(db)
  {
    StatesOf(db);
    hide Inv, StatesFollowHistory;
  }

  lemma NewFails(db: Db, c: Command, code: string)
    requires NewRequest(db, c) && c.expected == Version(db) && c.setId in db.sets && db.sets[c.setId].state == Candidate
    ensures
      var (db', out) := RunFail(db, c, code);
      && out == Done(c.setId, 0) && db'.pointer == db.pointer
      && c.setId in db'.sets && db'.sets[c.setId].state == Failed && db'.sets[c.setId].failureCode == Some(code)
  {
    NewIsFresh(db, c, FailSet);
    hide Admit;
  }

  // ---------------------------------------------------------------------------
  // A ready, valid candidate

  function CommittingOf(s: State, c: Command): State {
    s.(sent := s.sent + {ActivateRequest(c)},
       proc := Prepared(Reserve(s.proc), c.setId).(lock := true, phase := Committing(c, s.db.pointer)))
  }

  lemma Commits(s: State, c: Command, rest: seq<Step>)
    requires Ready(s, c)
    ensures Exec(s, Prelude(c) + ([FinishPrepare(true, true)] + rest)) == Exec(CommittingOf(s, c), rest)
    ensures Reachable(CommittingOf(s, c))
  {
    hide Exec, Next, Reachable;
    Prepares(s, c, [FinishPrepare(true, true)] + rest);
    FindsValid(PreparingOf(s, c), c, s.db.pointer);
    Go(PreparingOf(s, c), FinishPrepare(true, true), CommittingOf(s, c), rest);
    CommitsReachably(s, c);
  }

  lemma CommitsReachably(s: State, c: Command)
    requires Ready(s, c)
    ensures Reachable(PreparingOf(s, c)) && Reachable(CommittingOf(s, c))
  {
    hide Next, Reachable;
    Prepares(s, c, []);
    assert Exec(PreparingOf(s, c), []) == Some(PreparingOf(s, c));
    ReachableExec(s, Prelude(c) + []);
    FindsValid(PreparingOf(s, c), c, s.db.pointer);
    hide Exec;
    ReachableNext(PreparingOf(s, c), FinishPrepare(true, true));
  }

  /** Nothing but the candidate was prepared, reserved and settled, and it runs under the next version. */
  ghost predicate Succeeds(s: State, c: Command, t: State) {
    && t.proc.phase.Idle? && !t.proc.lock && !t.proc.degraded && t.proc.slot.accepting && !t.proc.slot.reserved
    && t.proc.slot.current == Some(Generation(c.setId, c.expected + 1))
    && t.proc.directories == s.proc.directories + {c.setId}
    && t.db.pointer == Some(Pointer(c.setId, PreviousOf(s.db.pointer), c.expected + 1))
    && c.setId in t.db.sets && t.db.sets[c.setId].state == Active
  }

  /** A new call for a ready and usable candidate activates it when the answer arrives. */
  lemma ActivationSucceeds(s: State, c: Command)
    requires Ready(s, c) && NewRequest(s.db, c) && AllUsable(s.db, s.db.sets[c.setId].items)
    ensures
      var t := Exec(s, Prelude(c) + ([FinishPrepare(true, true)] + [AnswerRequest(true), Proceed(false)]));
      t.Some? && Succeeds(s, c, t.value)
  {
    hide Exec, Next, Reachable, Inv, RunActivate, AllUsable, NewRequest;
    var s1 := CommittingOf(s, c);
    Commits(s, c, [AnswerRequest(true), Proceed(false)]);
    Two(s1, AnswerRequest(true), Proceed(false));
    InvOf(s);
    NewActivates(s.db, c);
    AnswersCommit(s1, c, s.db.pointer, true);
    var s2 := Next(s1, AnswerRequest(true)).value;
    ReachableNext(s1, AnswerRequest(true));
    CommitInstalls(s2, c, s.db.pointer, c.expected + 1, false);
  }

  lemma InvOf(s: State)
    requires Reachable(s)
    ensures Inv(s.db)
  {
    ReachableHolds(s);
    DbHolds(s);
    hide StateInv, Inv;
  }

  // ---------------------------------------------------------------------------
  // Answers that never arrive

  function UnknownOf(s: State, c: Command): State {
    var s1 := CommittingOf(s, c);
    s1.(proc := s1.proc.(phase := ReconcileTop(c, s.db.pointer), degraded := true, slot := s1.proc.slot.(accepting := false)))
  }

  /** Without an answer the call goes on to poll the database. */
  lemma Polling1(s: State, c: Command, db: Db, rest: seq<Step>)
    requires Ready(s, c)
    ensures
      var s1 := CommittingOf(s, c).(db := db);
      Reachable(s1) ==> Exec(s1, [LoseReply, Proceed(false)] + ([Proceed(false)] + rest)) ==
                        Exec(UnknownOf(s, c).(db := db, proc := UnknownOf(s, c).proc.(phase := Polling(c, s.db.pointer))), rest)
  {
    hide Next, Reachable;
    var s1, s2 := CommittingOf(s, c).(db := db), UnknownOf(s, c).(db := db);
    if Reachable(s1) {
      UnknownDegrades(s1, c, s.db.pointer, false);
      hide Exec, Ready;
      ExecConcat(s1, [LoseReply, Proceed(false)], [Proceed(false)] + rest);
      BeginsPoll(s2, c, s.db.pointer);
      Go(s2, Proceed(false), s2.(proc := s2.proc.(phase := Polling(c, s.db.pointer))), rest);
    }
  }

  /** The activation commits but its answer is lost: the next poll finds it, and the candidate runs all the same. */
  lemma LostAnswerSucceeds(s: State, c: Command)
    requires Ready(s, c) && NewRequest(s.db, c) && AllUsable(s.db, s.db.sets[c.setId].items)
    ensures
      var found := [Proceed(false)] + [Poll, Proceed(false)];
      var t := Exec(s, Prelude(c) + ([FinishPrepare(true, true)] + ([Deliver(ActivateRequest(c), true)] + ([LoseReply, Proceed(false)] + found))));
      t.Some? && Succeeds(s, c, t.value)
  {
    hide Exec, Next, Reachable, Inv, RunActivate, AllUsable, NewRequest;
    var found := [Proceed(false)] + [Poll, Proceed(false)];
    var lost := [LoseReply, Proceed(false)] + found;
    Commits(s, c, [Deliver(ActivateRequest(c), true)] + lost);
    InvOf(s);
    NewActivates(s.db, c);
    var s1, db := CommittingOf(s, c), RunActivate(s.db, c, true).0;
    Delivers(s1, c);
    Go(s1, Deliver(ActivateRequest(c), true), s1.(db := db), lost);
    ReachableNext(s1, Deliver(ActivateRequest(c), true));
    Polling1(s, c, db, [Poll, Proceed(false)]);
    var s2 := UnknownOf(s, c);
    var s3 := s2.(db := db, proc := s2.proc.(phase := Polling(c, s.db.pointer)));
    PollFinds(s3, c, s.db.pointer);
  }

  lemma Delivers(s: State, c: Command)
    requires ActivateRequest(c) in s.sent
    ensures Next(s, Deliver(ActivateRequest(c), true)) == Some(s.(db := RunActivate(s.db, c, true).0))
  {
    hide Activate, AnswerStep, CoordinatorStep;
  }

  lemma PollFinds(s: State, c: Command, active: Option<Pointer>)
    requires s.proc.phase == Polling(c, active) && CanCommit(s.proc.slot)
    requires s.db.pointer == Some(Pointer(c.setId, PreviousOf(active), c.expected + 1))
    requires c.setId in s.db.sets && s.db.sets[c.setId].state == Active
    ensures Exec(s, [Poll, Proceed(false)]) == Some(s.(proc := Release(AdmitRuns(Install(s.proc, Generation(c.setId, c.expected + 1), false)))))
  {
    hide Next, Settle;
    Polls(s, c, active);
    Two(s, Poll, Proceed(false));
    FindsActivation(s.(proc := s.proc.(phase := Polled(c, active, s.db.pointer, Some(Active)))), c, active);
  }

  lemma FindsActivation(s: State, c: Command, active: Option<Pointer>)
    requires s.proc.phase == Polled(c, active, Some(Pointer(c.setId, PreviousOf(active), c.expected + 1)), Some(Active))
    requires CanCommit(s.proc.slot)
    ensures Next(s, Proceed(false)) == Some(s.(proc := Release(AdmitRuns(Install(s.proc, Generation(c.setId, c.expected + 1), false)))))
  {
    assert Next(s, Proceed(false)) == CoordinatorStep(s, Proceed(false));
    hide Next, AdmitRuns, Install;
  }

  /** The generation from before runs on and admits runs; the candidate is gone, and its reservation with it. */
  ghost predicate Undone(s: State, c: Command, t: State) {
    && t.proc.phase.Idle? && !t.proc.lock && !t.proc.degraded
    && t.proc.slot == s.proc.slot && t.proc.slot.accepting
    && t.proc.directories == s.proc.directories
    && t.proc.generations == s.proc.generations + [Dropped]
    && t.proc.bookings == s.proc.bookings + [Cancelled]
    && t.db.pointer == s.db.pointer
  }

  ghost predicate MarkedFailed(t: State, c: Command, code: string) {
    c.setId in t.db.sets && t.db.sets[c.setId].state == Failed && t.db.sets[c.setId].failureCode == Some(code)
  }

  lemma FailureAnswers(s: State, c: Command, active: Option<Pointer>)
    requires s.proc.phase == PollMarking(c, active)
    requires NewRequest(s.db, c) && c.expected == Version(s.db) && c.setId in s.db.sets && s.db.sets[c.setId].state == Candidate
    ensures Next(s, AnswerRequest(true)) ==
            Some(s.(db := RunFail(s.db, c, "artifact_invalid").0, proc := s.proc.(phase := Resuming(c, active))))
  {
    hide MarkFailed, NewRequest;
    NewFails(s.db, c, "artifact_invalid");
  }

  /**
   The activation never reaches the database: the poll finds the candidate as it was, marks it failed, and
   the generation from before admits runs again.
   */
  lemma LostRequestFences(s: State, c: Command)
    requires Ready(s, c) && NewRequest(s.db, c)
    ensures
      var fence := [Proceed(false)] + [Poll, Proceed(false), AnswerRequest(true), RemoveDirectory(true)];
      var t := Exec(s, Prelude(c) + ([FinishPrepare(true, true)] + ([LoseReply, Proceed(false)] + fence)));
      t.Some? && Undone(s, c, t.value) && MarkedFailed(t.value, c, "artifact_invalid")
  {
    hide Exec, Next, Reachable, RunFail, NewRequest, StateInv, Ready;
    var fence := [Poll, Proceed(false), AnswerRequest(true), RemoveDirectory(true)];
    ReadyHolds(s, c);
    Commits(s, c, [LoseReply, Proceed(false)] + ([Proceed(false)] + fence));
    Polling1(s, c, s.db, fence);
    var s2 := UnknownOf(s, c);
    PollFences(s2.(proc := s2.proc.(phase := Polling(c, s.db.pointer))), c, s.db.pointer);
    NewFails(s.db, c, "artifact_invalid");
  }

  lemma PollFences(s: State, c: Command, active: Option<Pointer>)
    requires s.proc.phase == Polling(c, active) && s.db.pointer == active
    requires NewRequest(s.db, c) && c.expected == Version(s.db) && c.setId in s.db.sets && s.db.sets[c.setId].state == Candidate
    ensures Exec(s, [Poll, Proceed(false), AnswerRequest(true), RemoveDirectory(true)]) ==
            Some(State(RunFail(s.db, c, "artifact_invalid").0, s.sent + {FailRequest(c, "artifact_invalid")},
                       Release(AdmitRuns(CancelReservation(DropGeneration(s.proc, c.setId, true))))))
  {
    hide Exec, Next, RunFail, NewRequest, Settle;
    var s4 := s.(proc := s.proc.(phase := Polled(c, active, active, Some(Candidate))));
    var s5 := s4.(sent := s4.sent + {FailRequest(c, "artifact_invalid")}, proc := s4.proc.(phase := PollMarking(c, active)));
    var s6 := s5.(db := RunFail(s.db, c, "artifact_invalid").0, proc := s5.proc.(phase := Resuming(c, active)));
    Polls(s, c, active);
    Fences(s4, c, active);
    FailureAnswers(s5, c, active);
    Resumes(s6, c, active);
    Four(s, Poll, s4, Proceed(false), s5, AnswerRequest(true), s6, RemoveDirectory(true));
  }

  lemma Four(s: State, a: Step, t: State, b: Step, u: State, c: Step, v: State, d: Step)
    requires Next(s, a) == Some(t) && Next(t, b) == Some(u) && Next(u, c) == Some(v)
    ensures Exec(s, [a, b, c, d]) == Next(v, d)
  {
    hide Next, Exec;
    assert [a, b, c, d] == [a] + ([b] + ([c] + [d]));
    Go(s, a, t, [b] + ([c] + [d]));
    Go(t, b, u, [c] + [d]);
    Go(u, c, v, [d]);
    Last(v, d);
  }

  lemma Three(s: State, a: Step, t: State, b: Step, u: State, c: Step)
    requires Next(s, a) == Some(t) && Next(t, b) == Some(u)
    ensures Exec(s, [a, b, c]) == Next(u, c)
  {
    hide Next, Exec;
    assert [a, b, c] == [a] + ([b] + [c]);
    Go(s, a, t, [b] + [c]);
    Go(t, b, u, [c]);
    Last(u, c);
  }

  lemma FindsFenced(s: State, c: Command, active: Option<Pointer>, target: SetState)
    requires s.proc.phase == Polled(c, active, active, Some(target)) && (target == Failed || target == Discarded)
    ensures Next(s, Proceed(false)) == Some(s.(proc := s.proc.(phase := Resuming(c, active))))
  {
    assert Next(s, Proceed(false)) == CoordinatorStep(s, Proceed(false));
    hide Next;
  }

  /**
   A poll that finds the candidate failed or discarded and the pointer unmoved ends the call: the candidate is
   gone, and the former generation admits runs again unless the process drains.
   */
  lemma FencedResumes(s: State, c: Command, active: Option<Pointer>)
    requires Reachable(s) && s.proc.phase == Polling(c, active) && s.db.pointer == active && Fenced(s.db, c.setId)
    ensures
      var t := Exec(s, [Poll, Proceed(false), RemoveDirectory(true)]);
      && t.Some? && t.value.db == s.db && t.value.sent == s.sent
      && var p := t.value.proc;
      && p.phase.Idle? && !p.lock && !p.degraded
      && p.slot == s.proc.slot.(reserved := false, accepting := !s.proc.draining)
      && p.directories == s.proc.directories - {c.setId}
      && LastBecomes(s.proc.generations, p.generations, Dropped)
      && LastBecomes(s.proc.bookings, p.bookings, Cancelled)
  {
    hide Exec, Next, Reachable;
    PollingLedger(s);
    FencedRun(s, c, active);
  }

  lemma FencedRun(s: State, c: Command, active: Option<Pointer>)
    requires s.proc.phase == Polling(c, active) && s.db.pointer == active && Fenced(s.db, c.setId)
    ensures Exec(s, [Poll, Proceed(false), RemoveDirectory(true)]) ==
            Some(s.(proc := Release(AdmitRuns(CancelReservation(DropGeneration(s.proc, c.setId, true))))))
  {
    hide Exec, Next, Settle;
    var target := s.db.sets[c.setId].state;
    var s1 := s.(proc := s.proc.(phase := Polled(c, active, active, Some(target))));
    var s2 := s.(proc := s.proc.(phase := Resuming(c, active)));
    Polls(s, c, active);
    FindsFenced(s1, c, active, target);
    Resumes(s2, c, active);
    Three(s, Poll, s1, Proceed(false), s2, RemoveDirectory(true));
  }

  lemma PollingLedger(s: State)
    requires Reachable(s) && s.proc.phase.Polling?
    ensures s.proc.generations != [] && s.proc.bookings != []
  {
    ReachableHolds(s);
    hide Reachable, DbInv, SlotHolds, FloorHolds, AcceptingHolds, PhaseHolds;
  }

  /** Shutdown while the result is unknown ends the call: the lock is free, and nothing is settled. */
  lemma UnknownStops(s: State, c: Command)
    requires Ready(s, c)
    ensures
      var t := Exec(s, Prelude(c) + ([FinishPrepare(true, true)] + ([LoseReply, Proceed(false)] + [Shutdown, Proceed(false)])));
      && t.Some? && t.value.db == s.db
      && t.value.proc == UnknownOf(s, c).proc.(draining := true, stopped := true, lock := false, phase := Idle)
  {
    hide Exec, Next, Reachable;
    var s1, s2 := CommittingOf(s, c), UnknownOf(s, c);
    Commits(s, c, [LoseReply, Proceed(false)] + [Shutdown, Proceed(false)]);
    UnknownDegrades(s1, c, s.db.pointer, false);
    ExecConcat(s1, [LoseReply, Proceed(false)], [Shutdown, Proceed(false)]);
    hide Ready;
    Drains(s2);
    Two(s2, Shutdown, Proceed(false));
    StopsPolling(Next(s2, Shutdown).value, c, s.db.pointer);
  }

  lemma Drains(s: State)
    requires !s.proc.phase.Down? && OwnerOf(s.proc.phase) != RestoreCall
    ensures Next(s, Shutdown) == Some(s.(proc := s.proc.(draining := true, slot := s.proc.slot.(accepting := false))))
  {
  }

  // ---------------------------------------------------------------------------
  // Candidates that are not activated

  lemma MarkingAnswers(s: State, c: Command, active: Option<Pointer>)
    requires s.proc.phase == Marking(c, active, true)
    ensures Next(s, AnswerRequest(true)) ==
            Some(s.(db := RunFail(s.db, c, "skill_validation_failed").0, proc := s.proc.(phase := Dropping(c, active))))
  {
    hide MarkFailed;
  }

  /** An invalid candidate is marked failed and discarded, and the process is as it was. */
  lemma InvalidFails(s: State, c: Command)
    requires Ready(s, c) && NewRequest(s.db, c)
    ensures
      var t := Exec(s, Prelude(c) + [FinishPrepare(true, false), AnswerRequest(true), RemoveDirectory(true)]);
      && t.Some? && Undone(s, c, t.value) && MarkedFailed(t.value, c, "skill_validation_failed")
      && t.value.sent == s.sent + {FailRequest(c, "skill_validation_failed")}
  {
    hide Exec, Next, Reachable, RunFail, NewRequest, StateInv, Ready;
    var active := s.db.pointer;
    ReadyHolds(s, c);
    Prepares(s, c, [FinishPrepare(true, false), AnswerRequest(true), RemoveDirectory(true)]);
    var s1 := PreparingOf(s, c);
    FindsInvalid(s1, c, active);
    var s2 := Next(s1, FinishPrepare(true, false)).value;
    MarkingAnswers(s2, c, active);
    NewFails(s.db, c, "skill_validation_failed");
    var s3 := Next(s2, AnswerRequest(true)).value;
    Discards(s3, c, active);
    Three(s1, FinishPrepare(true, false), s2, AnswerRequest(true), s3, RemoveDirectory(true));
  }

  /** A call cancelled while its candidate is prepared ends when the preparation does, and the process is as it was. */
  lemma CancelledCleansUp(s: State, c: Command, valid: bool)
    requires Ready(s, c)
    ensures
      var t := Exec(s, Prelude(c) + [Cancel(false), FinishPrepare(true, valid), RemoveDirectory(true)]);
      t.Some? && Undone(s, c, t.value) && t.value.db == s.db && t.value.sent == s.sent
  {
    hide Exec, Next, Reachable, StateInv, Ready;
    var active := s.db.pointer;
    ReadyHolds(s, c);
    Prepares(s, c, [Cancel(false), FinishPrepare(true, valid), RemoveDirectory(true)]);
    var s1 := PreparingOf(s, c);
    Abandons(s1, c, active);
    var s2 := Next(s1, Cancel(false)).value;
    FinishesAbandoned(s2, c, active, valid);
    var s3 := Next(s2, FinishPrepare(true, valid)).value;
    Discards(s3, c, active);
    Three(s1, Cancel(false), s2, FinishPrepare(true, valid), s3, RemoveDirectory(true));
  }

  lemma FindsNothing(s: State, c: Command, active: Option<Pointer>, valid: bool)
    requires s.proc.phase == Preparing(c, active)
    ensures Next(s, FinishPrepare(false, valid)) ==
            Some(s.(sent := s.sent + {FailRequest(c, "skill_validation_failed")}, proc := s.proc.(phase := Marking(c, active, false))))
  {
    assert Next(s, FinishPrepare(false, valid)) == CoordinatorStep(s, FinishPrepare(false, valid));
    hide Next, Prepared;
  }

  lemma MarkingEnds(s: State, c: Command, active: Option<Pointer>)
    requires s.proc.phase == Marking(c, active, false)
    ensures Next(s, AnswerRequest(true)) ==
            Some(s.(db := RunFail(s.db, c, "skill_validation_failed").0, proc := Release(CancelReservation(s.proc))))
  {
    hide MarkFailed;
  }

  /** A candidate that cannot be prepared is marked failed, and only a cancelled reservation is left of the call. */
  lemma UnpreparedFails(s: State, c: Command, valid: bool)
    requires Ready(s, c) && NewRequest(s.db, c)
    ensures
      var t := Exec(s, Prelude(c) + [FinishPrepare(false, valid), AnswerRequest(true)]);
      && t.Some? && MarkedFailed(t.value, c, "skill_validation_failed") && t.value.db.pointer == s.db.pointer
      && t.value.proc == s.proc.(bookings := s.proc.bookings + [Cancelled])
  {
    hide Exec, Next, Reachable, RunFail, NewRequest, StateInv, Ready;
    var active := s.db.pointer;
    ReadyHolds(s, c);
    Prepares(s, c, [FinishPrepare(false, valid), AnswerRequest(true)]);
    var s1 := PreparingOf(s, c);
    FindsNothing(s1, c, active, valid);
    var s2 := Next(s1, FinishPrepare(false, valid)).value;
    MarkingEnds(s2, c, active);
    NewFails(s.db, c, "skill_validation_failed");
    Two(s1, FinishPrepare(false, valid), AnswerRequest(true));
  }

  // ---------------------------------------------------------------------------
  // Restore

  function RestoreReadOf(s: State): State {
    s.(proc := NO_PROCESS.(lock := true, phase := RestoreRead(s.db.pointer)))
  }

  lemma RestoreReads(s: State, rest: seq<Step>)
    requires s.proc.phase.Down?
    ensures Exec(s, [Start, ReadActive] + rest) == Exec(RestoreReadOf(s), rest)
  {
    hide Exec, Apply, MutationOf, AnswerStep;
    var s1 := s.(proc := NO_PROCESS.(lock := true, phase := RestoreReading));
    assert [Start, ReadActive] + rest == [Start] + ([ReadActive] + rest);
    Go(s, Start, s1, [ReadActive] + rest);
    Go(s1, ReadActive, RestoreReadOf(s), rest);
  }

  /** Without an active set the process serves unconfigured. */
  lemma RestoreServesUnconfigured(s: State)
    requires s.proc.phase.Down? && s.db.pointer.None?
    ensures Exec(s, [Start, ReadActive] + [Proceed(false)]) ==
            Some(s.(proc := NO_PROCESS.(phase := Idle, restored := true, slot := EMPTY_SLOT.(accepting := true))))
  {
    hide Exec, Apply, MutationOf, AnswerStep;
    RestoreReads(s, [Proceed(false)]);
    Last(RestoreReadOf(s), Proceed(false));
  }

  function RestorePreparingOf(s: State): State
    requires s.db.pointer.Some?
  {
    s.(proc := NO_PROCESS.(lock := true, phase := RestorePreparing(s.db.pointer.value),
                           slot := EMPTY_SLOT.(reserved := true), bookings := [Open]))
  }

  lemma SettleOne<T>(x: T, y: T)
    ensures [] + [x] == [x] && Settle([x], y) == [y]
  {
  }

  lemma FirstDirectory(setId: Uuid)
    ensures {} + {setId} == {setId} && {setId} - {setId} == {}
  {
  }

  lemma RestoreReserves(s: State, rest: seq<Step>)
    requires s.proc.phase.Down? && s.db.pointer.Some?
    ensures Exec(s, [Start, ReadActive] + ([Proceed(false)] + rest)) == Exec(RestorePreparingOf(s), rest)
  {
    hide Exec, Apply, MutationOf, AnswerStep;
    RestoreReads(s, [Proceed(false)] + rest);
    assert NO_PROCESS.bookings + [Open] == [Open];
    Go(RestoreReadOf(s), Proceed(false), RestorePreparingOf(s), rest);
  }

  /** With one it serves that set under the pointer's version, once it is prepared and valid. */
  lemma RestoreServesActive(s: State)
    requires s.proc.phase.Down? && s.db.pointer.Some?
    ensures
      var g := Generation(s.db.pointer.value.active, s.db.pointer.value.version);
      Exec(s, [Start, ReadActive] + ([Proceed(false)] + [FinishPrepare(true, true)])) ==
      Some(s.(proc := Process(Idle, false, false, false, true, false, Slot(Some(g), None, false, true),
                              {g.setId}, {}, [Installed], [Booking.Committed])))
  {
    hide Exec, Apply, MutationOf, AnswerStep;
    RestoreReserves(s, [FinishPrepare(true, true)]);
    SettleOne(Held, Installed);
    SettleOne(Open, Booking.Committed);
    FirstDirectory(s.db.pointer.value.active);
    Last(RestorePreparingOf(s), FinishPrepare(true, true));
  }

  /** An active set that is not valid is discarded again, and the process stays closed and degraded. */
  lemma RestoreRefusesInvalid(s: State)
    requires s.proc.phase.Down? && s.db.pointer.Some?
    ensures
      Exec(s, [Start, ReadActive] + ([Proceed(false)] + [FinishPrepare(true, false), RemoveDirectory(true)])) ==
      Some(s.(proc := NO_PROCESS.(phase := Idle, degraded := true, generations := [Dropped], bookings := [Cancelled])))
  {
    hide Exec, Apply, MutationOf, AnswerStep;
    RestoreReserves(s, [FinishPrepare(true, false), RemoveDirectory(true)]);
    SettleOne(Held, Dropped);
    SettleOne(Open, Cancelled);
    FirstDirectory(s.db.pointer.value.active);
    Two(RestorePreparingOf(s), FinishPrepare(true, false), RemoveDirectory(true));
  }

  /** One that cannot be read or prepared leaves nothing behind but the degraded process. */
  lemma RestoreFailsClosed(s: State, valid: bool)
    requires s.proc.phase.Down? && s.db.pointer.Some?
    ensures
      Exec(s, [Start, ReadActive] + ([Proceed(false)] + [FinishPrepare(false, valid)])) ==
      Some(s.(proc := NO_PROCESS.(phase := Idle, degraded := true, bookings := [Cancelled])))
  {
    hide Exec, Apply, MutationOf, AnswerStep;
    RestoreReserves(s, [FinishPrepare(false, valid)]);
    SettleOne(Open, Cancelled);
    Last(RestorePreparingOf(s), FinishPrepare(false, valid));
  }
}
