/**
 The activation lock over every run of the tasks: one task at a time answers for it, it is released by
 that task alone, once for each acquisition, and it leaks in exactly one way.  The tasks simulate the
 protocol, whose single phase is thereby a theorem about them.
 */
module ActivationTaskTheorems {
  import opened Common
  import opened Registry
  import opened Activation
  import opened ActivationInvariants
  import opened ActivationTheorems
  import opened ActivationTasks

  /** A task whose `finally` clause is still to give the lock up. */
  ghost predicate Responsible(t: Task) {
    !t.place.Over? && !t.transferred
  }

  ghost predicate NobodyResponsible(w: World) {
    forall i :: 0 <= i < |w.tasks| ==> !Responsible(w.tasks[i])
  }

  /** The lock is held and no task is left that could release it. */
  ghost predicate Leaks(w: World) {
    w.lock && NobodyResponsible(w)
  }

  // ---------------------------------------------------------------------------
  // The simulation

  ghost predicate TaskHolds(t: Task, runs: bool) {
    && (t.place.Suspended? ==> !t.transferred)
    && (t.place.Watching? ==> t.transferred)
    && (t.place.AtFinally? <==> runs)
    && (t.transferred ==> t.owner.ActivateCallTask? || t.owner.CommitTask?)
    && !t.owner.NoOwner?
  }

  ghost predicate TasksHold(w: World) {
    && (forall i :: 0 <= i < |w.tasks| ==> TaskHolds(w.tasks[i], w.running == Some(i)))
    && (w.running.Some? ==> w.running.value < |w.tasks|)
    && !w.raised
  }

  /** The one responsible task is suspended at the phase. */
  ghost predicate SoleAt(w: World, i: nat, phase: Phase) {
    && i < |w.tasks|
    && w.tasks[i].place == Suspended(phase) && w.tasks[i].owner == OwnerOf(phase)
    && forall j :: 0 <= j < |w.tasks| && j != i ==> !Responsible(w.tasks[j])
  }

  ghost predicate OnlyRunning(w: World) {
    forall j :: 0 <= j < |w.tasks| && Responsible(w.tasks[j]) ==> w.running == Some(j)
  }

  ghost predicate Control(w: World, phase: Phase) {
    match phase
    case Down => !w.up && w.tasks == [] && !w.lock
    case Idle => w.up && OnlyRunning(w) && (w.lock <==> !NobodyResponsible(w))
    case Leaked => w.up && Leaks(w)
    case _ => w.up && w.lock && exists i :: SoleAt(w, i, phase)
  }

  ghost predicate LogHolds(w: World) {
    && (forall k :: 0 <= k < |w.log| ==> w.log[k] == if k % 2 == 0 then Acquired(k / 2) else Released(k / 2))
    && (w.lock <==> |w.log| % 2 == 1)
    && (forall i :: 0 <= i < |w.tasks| && Responsible(w.tasks[i]) ==> w.tasks[i].grant == |w.log| / 2)
  }

  ghost predicate SameData(w: World, s: State) {
    w.db == s.db && w.sent == s.sent && w.proc == Shared(s.proc)
  }

  /** The tasks are in the state the protocol shows. */
  ghost predicate Shows(w: World, s: State) {
    SameData(w, s) && TasksHold(w) && Control(w, s.proc.phase) && LogHolds(w) && Reachable(s)
  }

  lemma DeadShows(s: State)
    requires Reachable(s)
    ensures Shows(DEAD.(db := s.db, sent := s.sent), s.(proc := NO_PROCESS))
  {
    hide Reachable;
    ReachableNext(s, Crash);
  }

  /** A change of the shared data alone leaves the tasks where they are. */
  lemma EnvironmentShows(w: World, s: State, a: Step)
    requires Shows(w, s) && EnvironmentStep(w, a).Some?
    ensures Next(s, a).Some? && Next(s, a).value.proc.phase == s.proc.phase
    ensures Shows(EnvironmentStep(w, a).value, Next(s, a).value)
  {
    hide Reachable, TasksHold, LogHolds, Restoring, Control, Next;
    if a.Shutdown? {
      NotRestoring(w, s);
    }
    SameEnvironment(w, s, a);
    ReachableNext(s, a);
    OnlyDataMoved(w, EnvironmentStep(w, a).value, s.proc.phase);
  }

  lemma SameEnvironment(w: World, s: State, a: Step)
    requires SameData(w, s) && EnvironmentStep(w, a).Some?
    requires a.Shutdown? ==> s.proc.phase != Down && OwnerOf(s.proc.phase) != RestoreCall
    ensures Next(s, a).Some? && Next(s, a).value.proc.phase == s.proc.phase
    ensures SameData(EnvironmentStep(w, a).value, Next(s, a).value)
    ensures EnvironmentStep(w, a).value == WithBody(w, Next(s, a).value)
  {
    hide Apply, AnswerStep, CoordinatorStep, Restoring;
  }

  lemma TasksStay(w: World, w': World)
    requires w'.tasks == w.tasks && w'.running == w.running && w'.raised == w.raised && w'.log == w.log && w'.lock == w.lock
    requires TasksHold(w) && LogHolds(w)
    ensures TasksHold(w') && LogHolds(w')
  {
    hide Responsible, TaskHolds;
  }

  lemma ControlStays(w: World, w': World, phase: Phase)
    requires w'.tasks == w.tasks && w'.running == w.running && w'.up == w.up && w'.lock == w.lock
    requires Control(w, phase)
    ensures Control(w', phase)
  {
    hide Responsible, OwnerOf;
    if phase != Down && phase != Idle && phase != Leaked {
      var i :| SoleAt(w, i, phase);
      assert SoleAt(w', i, phase);
    }
  }

  lemma OnlyDataMoved(w: World, w': World, phase: Phase)
    requires w' == w.(db := w'.db, sent := w'.sent, proc := w'.proc)
    requires TasksHold(w) && LogHolds(w) && Control(w, phase)
    ensures TasksHold(w') && LogHolds(w') && Control(w', phase)
  {
    hide TasksHold, LogHolds, Control;
    TasksStay(w, w');
    ControlStays(w, w', phase);
  }

  lemma NotRestoring(w: World, s: State)
    requires Shows(w, s) && w.up && !Restoring(w)
    ensures s.proc.phase != Down && OwnerOf(s.proc.phase) != RestoreCall
  {
    hide Reachable, TasksHold, LogHolds, SameData;
  }

  /** A call that finds the lock free becomes the one responsible task. */
  lemma Enters(w: World, owner: Owner, phase: Phase)
    requires w.up && !w.lock && w.running.None? && NobodyResponsible(w)
    requires TasksHold(w) && LogHolds(w)
    requires owner == OwnerOf(phase) && owner != NoOwner
    ensures TasksHold(Enter(w, owner, phase)) && LogHolds(Enter(w, owner, phase)) && Control(Enter(w, owner, phase), phase)
  {
    var w' := Enter(w, owner, phase);
    EntersTasks(w, w', w'.tasks[|w.tasks|]);
    EntersLog(w, w', w'.tasks[|w.tasks|]);
    hide TasksHold, LogHolds, OwnerOf;
    assert SoleAt(w', |w.tasks|, phase);
  }

  lemma EntersTasks(w: World, w': World, t: Task)
    requires TasksHold(w) && w.running.None? && TaskHolds(t, false)
    requires w' == w.(lock := w'.lock, log := w'.log, tasks := w.tasks + [t])
    ensures TasksHold(w')
  {
    hide TaskHolds;
    assert forall i :: 0 <= i < |w.tasks| ==> TaskHolds(w.tasks[i], false);
  }

  lemma EntersLog(w: World, w': World, t: Task)
    requires LogHolds(w) && !w.lock && NobodyResponsible(w) && t.grant == |w.log| / 2
    requires w' == w.(lock := true, log := w.log + [Acquired(t.grant)], tasks := w.tasks + [t])
    ensures LogHolds(w')
  {
    hide Responsible;
    assert (|w.log| + 1) / 2 == |w.log| / 2;
  }

  lemma FreeWhenIdle(w: World, phase: Phase)
    requires Control(w, phase) && TasksHold(w) && w.up
    ensures !w.lock ==> phase.Idle? && NobodyResponsible(w)
  {
  }

  /** Only where the lock is free does a call get past its guard. */
  lemma CallShows(w: World, s: State, c: Command)
    requires Shows(w, s) && WorldNext(w, CallActivate(c)).Some?
    ensures
      var w' := WorldNext(w, CallActivate(c)).value;
      w' == w || (Next(s, Call(c)).Some? && Shows(w', Next(s, Call(c)).value) && Next(s, Call(c)).value.proc.phase == Loading(c))
  {
    hide Reachable, TasksHold, LogHolds, Control, Next;
    FreeWhenIdle(w, s.proc.phase);
    var w' := WorldNext(w, CallActivate(c)).value;
    if w' != w {
      Enters(w, ActivateCallTask, Loading(c));
      CallNext(s, c);
      ReachableNext(s, Call(c));
    }
  }

  lemma CallNext(s: State, c: Command)
    requires s.proc.phase.Idle? && !s.proc.draining && !s.proc.degraded
    ensures Next(s, Call(c)) == Some(s.(proc := s.proc.(lock := true, phase := Loading(c))))
  {
  }

  lemma StartShows(w: World, s: State)
    requires Shows(w, s) && WorldNext(w, StartUp).Some?
    ensures Next(s, Start).Some? && Shows(WorldNext(w, StartUp).value, Next(s, Start).value)
    ensures Next(s, Start).value.proc.phase == RestoreReading
  {
    hide Reachable, TasksHold, LogHolds, Next;
    assert s.proc.phase.Down?;
    hide Control;
    var v := w.(up := true, proc := Shared(NO_PROCESS));
    StartFree(w, v);
    Enters(v, RestoreCall, RestoreReading);
    StartNext(s);
    ReachableNext(s, Start);
  }

  lemma StartFree(w: World, v: World)
    requires TasksHold(w) && LogHolds(w) && w.tasks == [] && !w.lock && v == w.(up := true, proc := v.proc)
    ensures TasksHold(v) && LogHolds(v) && NobodyResponsible(v) && v.running.None?
  {
  }

  lemma StartNext(s: State)
    requires s.proc.phase.Down?
    ensures Next(s, Start) == Some(s.(proc := NO_PROCESS.(phase := RestoreReading, lock := true)))
  {
  }

  // ---------------------------------------------------------------------------
  // One task at work

  lemma RunningElsewhere(w: World, i: nat, phase: Phase)
    requires TasksHold(w) && Control(w, phase) && w.running.None? && i < |w.tasks| && w.tasks[i].place.Suspended?
    ensures SoleAt(w, i, w.tasks[i].place.phase) && w.tasks[i].place.phase == phase && w.lock && w.up
    ensures OwnerOf(phase) != NoOwner
  {
    assert TaskHolds(w.tasks[i], false) && Responsible(w.tasks[i]);
    if phase != Down && phase != Idle && phase != Leaked {
      var j :| SoleAt(w, j, phase);
    }
  }

  /** Wherever the responsible task gets to, exactly it or the task it started answers for the lock. */
  lemma ContinueShows(w: World, i: nat, phase: Phase, a: Step, next: Phase)
    requires TasksHold(w) && LogHolds(w) && w.lock && w.up && w.running.None? && SoleAt(w, i, phase)
    requires Flows(phase, a, next) && OwnerOf(phase) != NoOwner
    ensures TasksHold(Continue(w, i, next)) && LogHolds(Continue(w, i, next)) && Control(Continue(w, i, next), next)
  {
    var t := w.tasks[i];
    var child := Started(t.owner, next);
    assert TaskHolds(t, false);
    if next.Idle? {
      Moves(w, i, AtFinally, Some(i));
    } else if next.Leaked? {
      Moves(w, i, Over, None);
    } else if child.NoOwner? {
      Moves(w, i, Suspended(next), None);
      assert SoleAt(Continue(w, i, next), i, next);
    } else {
      HandsOn(w, i, next, child);
    }
  }

  lemma Moves(w: World, i: nat, place: Place, running: Option<nat>)
    requires TasksHold(w) && LogHolds(w) && w.running.None? && i < |w.tasks| && Responsible(w.tasks[i])
    requires !place.Watching? && (running == if place.AtFinally? then Some(i) else None)
    ensures
      var w' := w.(tasks := w.tasks[i := w.tasks[i].(place := place)], running := running);
      TasksHold(w') && LogHolds(w')
  {
  }

  lemma HandsOn(w: World, i: nat, next: Phase, child: Owner)
    requires TasksHold(w) && LogHolds(w) && w.lock && w.up && w.running.None? && i < |w.tasks| && Responsible(w.tasks[i])
    requires forall j :: 0 <= j < |w.tasks| && j != i ==> !Responsible(w.tasks[j])
    requires child == Started(w.tasks[i].owner, next) && child != NoOwner && !next.Idle? && !next.Leaked?
    ensures TasksHold(Continue(w, i, next)) && LogHolds(Continue(w, i, next)) && Control(Continue(w, i, next), next)
  {
    var w' := Continue(w, i, next);
    hide LogHolds;
    assert LogHolds(w') by {
      HandsOnLog(w, i, next);
    }
    assert SoleAt(w', |w.tasks|, next);
  }

  lemma HandsOnLog(w: World, i: nat, next: Phase)
    requires LogHolds(w) && i < |w.tasks| && Responsible(w.tasks[i])
    requires Started(w.tasks[i].owner, next) != NoOwner && !next.Idle? && !next.Leaked?
    ensures LogHolds(Continue(w, i, next))
  {
  }

  lemma ResumeShows(w: World, s: State, i: nat, a: Step)
    requires Shows(w, s) && ResumeStep(w, i, a).Some?
    ensures i < |w.tasks| && w.tasks[i].place == Suspended(s.proc.phase) && OwnerOf(s.proc.phase) != NoOwner
    ensures Next(s, a).Some? && Shows(ResumeStep(w, i, a).value, Next(s, a).value)
  {
    hide Reachable, TasksHold, LogHolds, Control, Next, Continue, AnswerStep, CoordinatorStep, SoleAt;
    RunningElsewhere(w, i, s.proc.phase);
    LockedState(s);
    assert s == Body(w, s.proc.phase);
    ResumeNext(s, a);
    ReachableNext(s, a);
    ResumedTasks(w, i, a, s.proc.phase, Next(s, a).value);
  }

  lemma ResumedTasks(w: World, i: nat, a: Step, phase: Phase, t: State)
    requires TasksHold(w) && LogHolds(w) && Control(w, phase)
    requires w.running.None? && i < |w.tasks| && w.tasks[i].place.Suspended?
    requires Flows(phase, a, t.proc.phase)
    ensures
      var w' := Continue(WithBody(w, t), i, t.proc.phase);
      SameData(w', t) && TasksHold(w') && LogHolds(w') && Control(w', t.proc.phase)
  {
    hide TasksHold, LogHolds, Control, Continue, SoleAt, Flows;
    var v := WithBody(w, t);
    OnlyDataMoved(w, v, phase);
    RunningElsewhere(v, i, phase);
    ContinueShows(v, i, phase, a, t.proc.phase);
    ContinueKeepsData(v, i, t.proc.phase);
  }

  lemma ContinueKeepsData(w: World, i: nat, next: Phase)
    requires i < |w.tasks|
    ensures var w' := Continue(w, i, next); w'.db == w.db && w'.sent == w.sent && w'.proc == w.proc
  {
  }

  lemma LockedState(s: State)
    requires Reachable(s) && OwnerOf(s.proc.phase) != NoOwner
    ensures s.proc.lock
  {
    hide Reachable;
    LockHasOneOwner(s);
  }

  lemma ResumeNext(s: State, a: Step)
    requires OwnerOf(s.proc.phase) != NoOwner
    requires (if a.AnswerRequest? then AnswerStep(s, a.clockAdvanced) else CoordinatorStep(s, a)).Some?
    ensures Next(s, a) == (if a.AnswerRequest? then AnswerStep(s, a.clockAdvanced) else CoordinatorStep(s, a))
    ensures Flows(s.proc.phase, a, Next(s, a).value.proc.phase)
  {
    hide Flows, AnswerStep;
    if a.AnswerRequest? {
      AnswersFlow(s, a.clockAdvanced);
    } else {
      StepFlows(s, a);
    }
  }

  // ---------------------------------------------------------------------------
  // Finally clauses

  lemma WakeShows(w: World, s: State, i: nat)
    requires Shows(w, s) && WorldNext(w, Wake(i)).Some?
    ensures Shows(WorldNext(w, Wake(i)).value, s)
  {
    hide Reachable, OwnerOf, LogHolds;
    var w' := WorldNext(w, Wake(i)).value;
    assert TaskHolds(w.tasks[i], false);
    assert LogHolds(w') by {
      WakeLog(w, w', i);
    }
    if s.proc.phase != Down && s.proc.phase != Idle && s.proc.phase != Leaked {
      var j :| SoleAt(w, j, s.proc.phase);
      assert SoleAt(w', j, s.proc.phase);
    }
  }

  lemma WakeLog(w: World, w': World, i: nat)
    requires LogHolds(w) && i < |w.tasks| && w.tasks[i].transferred
    requires w' == w.(tasks := w.tasks[i := w.tasks[i].(place := AtFinally)], running := w'.running)
    ensures LogHolds(w')
  {
  }

  /** A finally clause of the responsible task finds the lock held and releases it; any other leaves it. */
  lemma FinallyReleases(w: World, s: State, i: nat)
    requires Shows(w, s) && WorldNext(w, RunFinally(i)).Some?
    ensures
      var t, ended := w.tasks[i], w.(tasks := w.tasks[i := w.tasks[i].(place := Over)], running := None);
      && WorldNext(w, RunFinally(i)).value == (if Responsible(t) then Unlock(ended, t) else ended)
      && (Responsible(t) ==> w.lock && s.proc.phase.Idle?)
  {
    hide Reachable, SameData, LogHolds;
    assert TaskHolds(w.tasks[i], true);
    if s.proc.phase != Down && s.proc.phase != Idle && s.proc.phase != Leaked {
      var j :| SoleAt(w, j, s.proc.phase);
    }
  }

  lemma FinallyShows(w: World, s: State, i: nat)
    requires Shows(w, s) && WorldNext(w, RunFinally(i)).Some?
    ensures Shows(WorldNext(w, RunFinally(i)).value, s)
  {
    hide Reachable, Control, TasksHold, LogHolds, WorldNext;
    FinallyReleases(w, s, i);
    FinallyEnds(w, i);
    var t := w.tasks[i];
    var w' := w.(tasks := w.tasks[i := t.(place := Over)], running := None);
    if Responsible(t) {
      Unlocks(w, i, s.proc.phase);
    } else {
      EndsUnresponsible(w, i, s.proc.phase);
    }
  }

  lemma FinallyEnds(w: World, i: nat)
    requires WorldNext(w, RunFinally(i)).Some?
    ensures i < |w.tasks| && w.running == Some(i)
  {
  }

  lemma Unlocks(w: World, i: nat, phase: Phase)
    requires TasksHold(w) && LogHolds(w) && Control(w, phase) && phase.Idle? && w.lock
    requires i < |w.tasks| && w.running == Some(i) && Responsible(w.tasks[i])
    ensures
      var w' := Unlock(w.(tasks := w.tasks[i := w.tasks[i].(place := Over)], running := None), w.tasks[i]);
      TasksHold(w') && LogHolds(w') && Control(w', phase)
  {
    assert (|w.log| + 1) % 2 == 0;
  }

  lemma EndsUnresponsible(w: World, i: nat, phase: Phase)
    requires TasksHold(w) && LogHolds(w) && Control(w, phase)
    requires i < |w.tasks| && w.running == Some(i) && !Responsible(w.tasks[i])
    ensures
      var w' := w.(tasks := w.tasks[i := w.tasks[i].(place := Over)], running := None);
      TasksHold(w') && LogHolds(w') && Control(w', phase)
  {
    EndedTasks(w, i);
    EndedLog(w, i);
    assert w.tasks[i].place.AtFinally? by { assert TaskHolds(w.tasks[i], true); }
    hide TasksHold, LogHolds;
    if OwnerOf(phase) == NoOwner {
      EndedUnowned(w, i, phase);
    } else {
      EndedBeside(w, i, phase);
    }
  }

  lemma EndedUnowned(w: World, i: nat, phase: Phase)
    requires Control(w, phase) && OwnerOf(phase) == NoOwner && i < |w.tasks| && w.running == Some(i) && !Responsible(w.tasks[i])
    ensures Control(w.(tasks := w.tasks[i := w.tasks[i].(place := Over)], running := None), phase)
  {
    var w' := w.(tasks := w.tasks[i := w.tasks[i].(place := Over)], running := None);
    assert forall j :: 0 <= j < |w.tasks| ==> (Responsible(w'.tasks[j]) <==> Responsible(w.tasks[j]));
    hide Responsible;
  }

  lemma EndedBeside(w: World, i: nat, phase: Phase)
    requires Control(w, phase) && OwnerOf(phase) != NoOwner && i < |w.tasks| && w.tasks[i].place.AtFinally?
    ensures Control(w.(tasks := w.tasks[i := w.tasks[i].(place := Over)], running := None), phase)
  {
    var w' := w.(tasks := w.tasks[i := w.tasks[i].(place := Over)], running := None);
    var j: nat :| SoleAt(w, j, phase);
    hide OwnerOf;
    assert SoleAt(w', j, phase);
  }

  lemma EndedTasks(w: World, i: nat)
    requires TasksHold(w) && i < |w.tasks| && w.running == Some(i)
    ensures TasksHold(w.(tasks := w.tasks[i := w.tasks[i].(place := Over)], running := None))
  {
  }

  lemma EndedLog(w: World, i: nat)
    requires LogHolds(w) && i < |w.tasks|
    ensures LogHolds(w.(tasks := w.tasks[i := w.tasks[i].(place := Over)], running := None))
  {
  }

  // ---------------------------------------------------------------------------
  // Runs

  /** A caller is cancelled at the await of its finally clause, where it discards its generation. */
  ghost predicate CancelsDiscard(w: World, x: WorldStep) {
    && x.Resume? && x.a.Cancel? && x.i < |w.tasks|
    && w.tasks[x.i].owner.ActivateCallTask? && w.tasks[x.i].place.Suspended? && w.tasks[x.i].place.phase.Dropping?
  }

  /** What the protocol shows when the tasks take a step. */
  ghost predicate Simulated(w: World, s: State, x: WorldStep, t: State) {
    && WorldNext(w, x).Some? && Shows(WorldNext(w, x).value, t)
    && (t == s || exists a :: Next(s, a) == Some(t))
    && (t.proc.phase.Leaked? <==> CancelsDiscard(w, x) || (s.proc.phase.Leaked? && !x.Die?))
  }

  lemma EnvironmentSimulated(w: World, s: State, a: Step) returns (t: State)
    requires Shows(w, s) && WorldNext(w, Environment(a)).Some?
    ensures Simulated(w, s, Environment(a), t)
  {
    hide Shows, Next, EnvironmentStep;
    EnvironmentShows(w, s, a);
    t := Next(s, a).value;
  }

  lemma DieSimulated(w: World, s: State) returns (t: State)
    requires Shows(w, s)
    ensures Simulated(w, s, Die, t)
  {
    hide TasksHold, Control, LogHolds;
    assert Reachable(s) && w.db == s.db && w.sent == s.sent;
    hide Shows, Reachable;
    DeadShows(s);
    t := s.(proc := NO_PROCESS);
    assert Next(s, Crash) == Some(t);
  }

  lemma StartSimulated(w: World, s: State) returns (t: State)
    requires Shows(w, s) && WorldNext(w, StartUp).Some?
    ensures Simulated(w, s, StartUp, t)
  {
    assert !s.proc.phase.Leaked? by {
      hide TasksHold, LogHolds, Reachable;
    }
    hide Shows, Next, Enter;
    StartShows(w, s);
    t := Next(s, Start).value;
  }

  lemma CallSimulated(w: World, s: State, c: Command) returns (t: State)
    requires Shows(w, s) && WorldNext(w, CallActivate(c)).Some?
    ensures Simulated(w, s, CallActivate(c), t)
  {
    hide Shows, Next, WorldNext;
    CallShows(w, s, c);
    if WorldNext(w, CallActivate(c)).value == w {
      t := s;
    } else {
      t := Next(s, Call(c)).value;
      NoCallWhenLeaked(w, s, c);
    }
  }

  lemma NoCallWhenLeaked(w: World, s: State, c: Command)
    requires Shows(w, s) && WorldNext(w, CallActivate(c)).Some? && WorldNext(w, CallActivate(c)).value != w
    ensures !s.proc.phase.Leaked?
  {
    hide TasksHold, LogHolds, Reachable;
  }

  lemma ResumeSimulated(w: World, s: State, i: nat, a: Step) returns (t: State)
    requires Shows(w, s) && WorldNext(w, Resume(i, a)).Some?
    ensures Simulated(w, s, Resume(i, a), t)
  {
    hide Shows, Next, ResumeStep;
    assert ResumeStep(w, i, a).Some?;
    ResumeShows(w, s, i, a);
    t := Next(s, a).value;
    ResumeLeaks(s, a);
    OwnerIs(w, s, i);
  }

  lemma ResumeLeaks(s: State, a: Step)
    requires OwnerOf(s.proc.phase) != NoOwner && Next(s, a).Some?
    ensures Next(s, a).value.proc.phase.Leaked? <==> s.proc.phase.Dropping? && a.Cancel?
  {
    LeakCondition(s, a);
  }

  lemma OwnerIs(w: World, s: State, i: nat)
    requires Shows(w, s) && i < |w.tasks| && w.tasks[i].place == Suspended(s.proc.phase)
    requires OwnerOf(s.proc.phase) != NoOwner
    ensures w.tasks[i].owner == OwnerOf(s.proc.phase)
  {
    hide Reachable, LogHolds, SameData;
    assert TaskHolds(w.tasks[i], w.running == Some(i)) && Responsible(w.tasks[i]);
    var j :| SoleAt(w, j, s.proc.phase);
  }

  /** Each step of the tasks is a step of the protocol or none, and leaks the lock in one way only. */
  lemma Simulates(w: World, s: State, x: WorldStep) returns (t: State)
    requires Shows(w, s) && WorldNext(w, x).Some?
    ensures Simulated(w, s, x, t)
  {
    hide Shows, Next, WorldNext;
    match x
    case Environment(a) => t := EnvironmentSimulated(w, s, a);
    case Die => t := DieSimulated(w, s);
    case StartUp => t := StartSimulated(w, s);
    case CallActivate(c) => t := CallSimulated(w, s, c);
    case Resume(i, a) => t := ResumeSimulated(w, s, i, a);
    case Wake(i) =>
      WakeShows(w, s, i);
      t := s;
    case RunFinally(i) =>
      FinallyShows(w, s, i);
      t := s;
  }

  lemma {:induction false} RunSimulated(w: World, s: State, xs: seq<WorldStep>) returns (t: State)
    requires Shows(w, s) && WorldRun(w, xs).Some?
    ensures Shows(WorldRun(w, xs).value, t)
    decreases |xs|
  {
    if xs == [] {
      t := s;
    } else {
      hide Shows, WorldNext;
      var u := Simulates(w, s, xs[0]);
      t := RunSimulated(WorldNext(w, xs[0]).value, u, xs[1..]);
    }
  }

  /** Every run of the tasks shows a run of the protocol. */
  lemma Shown(xs: seq<WorldStep>) returns (s: State)
    requires WorldRun(DEAD, xs).Some?
    ensures Shows(WorldRun(DEAD, xs).value, s)
  {
    hide Shows, WorldNext;
    InitialReachable();
    DeadShows(INITIAL);
    s := RunSimulated(DEAD, INITIAL, xs);
  }

  /**
   The single phase of the protocol is where the one responsible task stands, whichever tasks there are:
   no other task is inside its block, and the protocol's lock is the lock whenever no task is running.
   */
  lemma PhaseIsTheTask(xs: seq<WorldStep>) returns (s: State)
    requires WorldRun(DEAD, xs).Some?
    ensures
      var w := WorldRun(DEAD, xs).value;
      && Reachable(s) && SameData(w, s)
      && (forall i :: 0 <= i < |w.tasks| && w.tasks[i].place.Suspended? ==>
            w.tasks[i].place.phase == s.proc.phase && w.tasks[i].owner == OwnerOf(s.proc.phase))
      && (OwnerOf(s.proc.phase) != NoOwner ==> exists i :: SoleAt(w, i, s.proc.phase))
      && (w.running.None? ==> w.lock == s.proc.lock)
  {
    s := Shown(xs);
    hide WorldRun, WorldNext, Shows;
    ShownTasks(WorldRun(DEAD, xs).value, s);
    if WorldRun(DEAD, xs).value.running.None? {
      ShownLock(WorldRun(DEAD, xs).value, s);
    }
  }

  lemma ShownTasks(w: World, s: State)
    requires Shows(w, s)
    ensures Reachable(s) && SameData(w, s)
    ensures forall i :: 0 <= i < |w.tasks| && w.tasks[i].place.Suspended? ==>
              w.tasks[i].place.phase == s.proc.phase && w.tasks[i].owner == OwnerOf(s.proc.phase)
    ensures OwnerOf(s.proc.phase) != NoOwner ==> exists i :: SoleAt(w, i, s.proc.phase)
  {
    hide LogHolds, Reachable, SameData;
    forall i | 0 <= i < |w.tasks| && w.tasks[i].place.Suspended?
      ensures w.tasks[i].place.phase == s.proc.phase && w.tasks[i].owner == OwnerOf(s.proc.phase)
    {
      assert TaskHolds(w.tasks[i], w.running == Some(i)) && Responsible(w.tasks[i]);
    }
  }

  lemma ShownLock(w: World, s: State)
    requires Shows(w, s) && w.running.None?
    ensures w.lock == s.proc.lock
  {
    hide LogHolds, Reachable, SameData, TasksHold;
    LockHasOneOwner(s);
  }

  /** The lock is held exactly while one live task is responsible for it, or has leaked; releasing never fails. */
  lemma OneResponsibleTask(xs: seq<WorldStep>, i: nat, j: nat)
    requires WorldRun(DEAD, xs).Some?
    ensures
      var w := WorldRun(DEAD, xs).value;
      && (i < |w.tasks| && j < |w.tasks| && Responsible(w.tasks[i]) && Responsible(w.tasks[j]) ==> i == j)
      && (w.lock <==> Leaks(w) || !NobodyResponsible(w))
      && !w.raised
  {
    var s := Shown(xs);
    var w := WorldRun(DEAD, xs).value;
    hide WorldRun, WorldNext, LogHolds, Reachable, SameData, OwnerOf;
  }

  /**
   Only the responsible task's finally clause ever releases the lock, and it always does; the finally
   clauses of tasks that handed it over leave it alone.
   */
  lemma ReleasedByResponsible(xs: seq<WorldStep>, x: WorldStep)
    requires WorldRun(DEAD, xs).Some? && WorldNext(WorldRun(DEAD, xs).value, x).Some? && !x.Die?
    ensures
      var w := WorldRun(DEAD, xs).value;
      var w' := WorldNext(w, x).value;
      && (w.lock && !w'.lock <==> x.RunFinally? && Responsible(w.tasks[x.i]))
      && (w.lock && !w'.lock ==>
            w.log != [] && w.log[|w.log| - 1] == Acquired(w.tasks[x.i].grant)
            && w'.log == w.log + [Released(w.tasks[x.i].grant)])
  {
    var s := Shown(xs);
    var w := WorldRun(DEAD, xs).value;
    hide WorldRun, Reachable, Control, TasksHold, LogHolds;
    if x.RunFinally? {
      FinallyReleases(w, s, x.i);
      FinallyEnds(w, x.i);
      if Responsible(w.tasks[x.i]) {
        LastGrant(w, x.i);
      }
    } else {
      hide Shows;
      KeepsLock(w, x);
    }
  }

  lemma LastGrant(w: World, i: nat)
    requires LogHolds(w) && w.lock && i < |w.tasks| && Responsible(w.tasks[i])
    ensures w.log != [] && w.log[|w.log| - 1] == Acquired(w.tasks[i].grant)
  {
    assert w.log[|w.log| - 1] == Acquired((|w.log| - 1) / 2);
  }

  lemma KeepsLock(w: World, x: WorldStep)
    requires WorldNext(w, x).Some? && !x.Die? && !x.RunFinally?
    ensures w.lock ==> WorldNext(w, x).value.lock
  {
    hide Next, CoordinatorStep, AnswerStep, Restoring;
  }

  /** Acquisitions and releases alternate, so each acquisition is released at most once, before the next. */
  lemma ReleasedOnce(xs: seq<WorldStep>, k: nat)
    requires WorldRun(DEAD, xs).Some? && k < |WorldRun(DEAD, xs).value.log|
    ensures
      var log := WorldRun(DEAD, xs).value.log;
      && log[k] == (if k % 2 == 0 then Acquired(k / 2) else Released(k / 2))
      && (WorldRun(DEAD, xs).value.lock <==> |log| % 2 == 1)
  {
    var s := Shown(xs);
  }

  /** A caller that handed the lock over can end at any moment, and its clause leaves the lock and all else alone. */
  lemma WatcherEnds(xs: seq<WorldStep>, i: nat)
    requires WorldRun(DEAD, xs).Some?
    requires
      var w := WorldRun(DEAD, xs).value;
      w.running.None? && i < |w.tasks| && w.tasks[i].place.Watching?
    ensures
      var w := WorldRun(DEAD, xs).value;
      WorldRun(w, [Wake(i), RunFinally(i)]) == Some(w.(tasks := w.tasks[i := w.tasks[i].(place := Over)]))
  {
    var s := Shown(xs);
    var w := WorldRun(DEAD, xs).value;
    hide Reachable, OwnerOf, Control, LogHolds, SameData;
    assert TaskHolds(w.tasks[i], false);
    WatcherRuns(w, i);
  }

  lemma WatcherRuns(w: World, i: nat)
    requires w.running.None? && i < |w.tasks| && w.tasks[i].place.Watching? && w.tasks[i].transferred
    requires w.tasks[i].owner.ActivateCallTask? || w.tasks[i].owner.CommitTask?
    ensures WorldRun(w, [Wake(i), RunFinally(i)]) == Some(w.(tasks := w.tasks[i := w.tasks[i].(place := Over)]))
  {
    var v := WorldNext(w, Wake(i)).value;
    var u := WorldNext(v, RunFinally(i)).value;
    assert [Wake(i), RunFinally(i)][1..] == [RunFinally(i)] && [RunFinally(i)][1..] == [];
    assert WorldRun(v, [RunFinally(i)]) == WorldRun(u, []);
    assert v.tasks[i := v.tasks[i].(place := Over)] == w.tasks[i := w.tasks[i].(place := Over)];
  }

  // ---------------------------------------------------------------------------
  // The leak

  ghost predicate LeaksAt(xs: seq<WorldStep>, k: nat) {
    && k < |xs| && WorldRun(DEAD, xs[..k]).Some? && CancelsDiscard(WorldRun(DEAD, xs[..k]).value, xs[k])
    && Die !in xs[k + 1..]
  }

  /** The lock leaks exactly if some caller was cancelled during the discard in its finally clause. */
  lemma {:induction false} LeakExactly(xs: seq<WorldStep>)
    requires WorldRun(DEAD, xs).Some?
    ensures Leaks(WorldRun(DEAD, xs).value) <==> exists k: nat :: LeaksAt(xs, k)
    decreases |xs|
  {
    if xs != [] {
      var n := |xs| - 1;
      RunLast(DEAD, xs);
      LeakExactly(xs[..n]);
      var s := Shown(xs[..n]);
      var w := WorldRun(DEAD, xs[..n]).value;
      hide WorldRun, WorldNext, CancelsDiscard, Shows;
      var t := Simulates(w, s, xs[n]);
      LeaksShown(w, s);
      LeaksShown(WorldNext(w, xs[n]).value, t);
      LeaksLater(xs);
    }
  }

  lemma LeaksShown(w: World, s: State)
    requires Shows(w, s)
    ensures Leaks(w) <==> s.proc.phase.Leaked?
  {
    hide LogHolds, Reachable, SameData, OwnerOf;
    if s.proc.phase != Down && s.proc.phase != Idle && s.proc.phase != Leaked {
      var i: nat :| SoleAt(w, i, s.proc.phase);
      assert TaskHolds(w.tasks[i], w.running == Some(i)) && Responsible(w.tasks[i]);
    }
  }

  /** A leak of the run is one of its last step, or one before it that no crash ended. */
  lemma LeaksLater(xs: seq<WorldStep>)
    requires xs != [] && WorldRun(DEAD, xs[..|xs| - 1]).Some?
    ensures
      var n := |xs| - 1;
      (exists k: nat :: LeaksAt(xs, k)) <==>
      CancelsDiscard(WorldRun(DEAD, xs[..n]).value, xs[n]) || (xs[n] != Die && exists k: nat :: LeaksAt(xs[..n], k))
  {
    hide WorldRun, CancelsDiscard;
    var n := |xs| - 1;
    forall k: nat | k < n
      ensures LeaksAt(xs, k) <==> xs[n] != Die && LeaksAt(xs[..n], k)
    {
      assert xs[..n][..k] == xs[..k];
      assert xs[k + 1..] == xs[..n][k + 1..] + [xs[n]];
    }
    assert xs[n + 1..] == [];
    if CancelsDiscard(WorldRun(DEAD, xs[..n]).value, xs[n]) {
      assert LeaksAt(xs, n);
    }
  }

  lemma {:induction false} RunLast(w: World, xs: seq<WorldStep>)
    requires xs != [] && WorldRun(w, xs).Some?
    ensures WorldRun(w, xs[..|xs| - 1]).Some?
    ensures WorldNext(WorldRun(w, xs[..|xs| - 1]).value, xs[|xs| - 1]) == WorldRun(w, xs)
    decreases |xs|
  {
    hide WorldNext;
    if |xs| > 1 {
      RunLast(WorldNext(w, xs[0]).value, xs[1..]);
      assert xs[1..][..|xs| - 2] == xs[..|xs| - 1][1..];
    } else {
      assert xs[..0] == [] && xs[1..] == [];
    }
  }

  // ---------------------------------------------------------------------------
  // And back

  lemma OneStep(w: World, x: WorldStep)
    requires WorldNext(w, x).Some?
    ensures WorldRun(w, [x]) == WorldNext(w, x)
  {
    hide WorldNext;
    assert [x][1..] == [];
  }

  lemma EnvironmentMatches(w: World, s: State, a: Step)
    requires Shows(w, s) && Next(s, a).Some? && w.running.None?
    requires a.Manage? || a.Deliver? || a.Reap? || a.Shutdown? || a.CleanupCurrent?
    ensures EnvironmentStep(w, a).Some? && WorldNext(w, Environment(a)) == EnvironmentStep(w, a)
    ensures EnvironmentStep(w, a).value.running.None?
  {
    if a.Shutdown? {
      ShutdownMatches(w, s);
    }
    hide Shows, Apply, AnswerStep, CoordinatorStep, Restoring;
    assert SameData(w, s) by {
      assert Shows(w, s);
      SameDataOf(w, s);
    }
  }

  lemma SameDataOf(w: World, s: State)
    requires Shows(w, s)
    ensures SameData(w, s)
  {
  }

  lemma ShutdownMatches(w: World, s: State)
    requires Shows(w, s) && Next(s, Shutdown).Some? && w.running.None?
    ensures w.up && !Restoring(w)
  {
    hide Reachable, LogHolds, SameData;
    assert s.proc.phase != Down && OwnerOf(s.proc.phase) != RestoreCall;
    hide Next;
    forall i | 0 <= i < |w.tasks| && w.tasks[i].owner.RestoreCall?
      ensures w.tasks[i].place.Over?
    {
      assert TaskHolds(w.tasks[i], w.running == Some(i));
    }
  }

  lemma CrashMatches(w: World, s: State)
    requires Shows(w, s)
    ensures WorldNext(w, Die).Some? && WorldNext(w, Die).value.running.None?
    ensures Next(s, Crash).Some? && Shows(WorldNext(w, Die).value, Next(s, Crash).value)
  {
    hide TasksHold, Control, LogHolds;
    assert Reachable(s) && w.db == s.db && w.sent == s.sent;
    hide Shows, Reachable;
    DeadShows(s);
  }

  lemma StartMatches(w: World, s: State)
    requires Shows(w, s) && Next(s, Start).Some? && w.running.None?
    ensures WorldNext(w, StartUp).Some? && WorldNext(w, StartUp).value.running.None?
  {
    hide Reachable, LogHolds, SameData, TasksHold;
  }

  lemma CallMatches(w: World, s: State, a: Step)
    requires Shows(w, s) && s.proc.phase.Idle? && w.running.None? && Next(s, a).Some?
    requires !a.Manage? && !a.Deliver? && !a.Reap? && !a.Shutdown? && !a.CleanupCurrent? && !a.Crash? && !a.Start?
    ensures a.Call? && WorldNext(w, CallActivate(a.c)).Some? && WorldNext(w, CallActivate(a.c)).value.running.None?
    ensures Shows(WorldNext(w, CallActivate(a.c)).value, Next(s, a).value)
  {
    hide TasksHold, LogHolds, Reachable;
    assert a.Call? && w.up && !w.lock && w.proc == Shared(s.proc) && Next(s, a) == IdleStep(s, a);
    hide Control, Next, Shows;
    if !s.proc.draining && !s.proc.degraded {
      CallShows(w, s, a.c);
    }
  }

  lemma ResumeMatches(w: World, s: State, a: Step) returns (xs: seq<WorldStep>)
    requires Shows(w, s) && !s.proc.phase.Idle? && w.running.None? && Next(s, a).Some?
    requires !a.Manage? && !a.Deliver? && !a.Reap? && !a.Shutdown? && !a.CleanupCurrent? && !a.Crash? && !a.Start?
    ensures WorldRun(w, xs).Some? && WorldRun(w, xs).value.running.None?
    ensures Shows(WorldRun(w, xs).value, Next(s, a).value)
  {
    hide Shows, Next, WorldNext, WorldRun, ResumeStep;
    var i := ResumesSole(w, s, a);
    ResumeShows(w, s, i, a);
    var v := ResumeStep(w, i, a).value;
    assert WorldNext(w, Resume(i, a)) == Some(v) by { ResumeIs(w, i, a); }
    OneStep(w, Resume(i, a));
    if v.running.None? {
      xs := [Resume(i, a)];
    } else {
      var j := v.running.value;
      FinallyEnabled(v, Next(s, a).value);
      FinallyShows(v, Next(s, a).value, j);
      xs := [Resume(i, a), RunFinally(j)];
      OneStep(v, RunFinally(j));
      assert xs[1..] == [RunFinally(j)];
      TwoSteps(w, v, xs);
    }
  }

  lemma ResumeIs(w: World, i: nat, a: Step)
    ensures WorldNext(w, Resume(i, a)) == ResumeStep(w, i, a)
  {
    hide ResumeStep;
  }

  lemma TwoSteps(w: World, v: World, xs: seq<WorldStep>)
    requires |xs| == 2 && WorldNext(w, xs[0]) == Some(v)
    ensures WorldRun(w, xs) == WorldRun(v, xs[1..])
  {
    hide WorldNext;
  }

  lemma ResumesSole(w: World, s: State, a: Step) returns (i: nat)
    requires Shows(w, s) && !s.proc.phase.Idle? && w.running.None? && Next(s, a).Some?
    requires !a.Manage? && !a.Deliver? && !a.Reap? && !a.Shutdown? && !a.CleanupCurrent? && !a.Crash? && !a.Start?
    ensures ResumeStep(w, i, a).Some?
  {
    hide Shows, Next, AnswerStep, CoordinatorStep, ResumeStep;
    NextIsCode(s, a);
    i := SoleTask(w, s);
    SoleResumes(w, s, i, a);
  }

  /** The task that stands where the protocol does sees the state of the protocol. */
  lemma SoleTask(w: World, s: State) returns (i: nat)
    requires Shows(w, s) && OwnerOf(s.proc.phase) != NoOwner
    ensures SoleAt(w, i, s.proc.phase) && s == Body(w, s.proc.phase)
  {
    hide TasksHold, LogHolds;
    LockedState(s);
    hide Reachable;
    i :| SoleAt(w, i, s.proc.phase);
  }

  lemma SoleResumes(w: World, s: State, i: nat, a: Step)
    requires SoleAt(w, i, s.proc.phase) && s == Body(w, s.proc.phase) && !s.proc.phase.Idle? && w.running.None?
    requires (if a.AnswerRequest? then AnswerStep(s, a.clockAdvanced) else CoordinatorStep(s, a)).Some?
    ensures ResumeStep(w, i, a).Some?
  {
    hide AnswerStep, CoordinatorStep, Continue;
  }

  lemma NextIsCode(s: State, a: Step)
    requires !a.Manage? && !a.Deliver? && !a.Reap? && !a.Shutdown? && !a.CleanupCurrent? && !a.Crash? && !a.Start?
    requires !s.proc.phase.Idle? && Next(s, a).Some?
    ensures Next(s, a) == (if a.AnswerRequest? then AnswerStep(s, a.clockAdvanced) else CoordinatorStep(s, a))
    ensures OwnerOf(s.proc.phase) != NoOwner
  {
    hide Apply, IdleStep;
  }

  lemma FinallyEnabled(w: World, s: State)
    requires Shows(w, s) && w.running.Some?
    ensures WorldNext(w, RunFinally(w.running.value)).Some?
    ensures WorldNext(w, RunFinally(w.running.value)).value.running.None?
  {
    hide Reachable, LogHolds, SameData, Control;
    assert TaskHolds(w.tasks[w.running.value], true);
  }

  /** The steps of the tasks behind a step of the protocol, up to the next await. */
  lemma Matches(w: World, s: State, a: Step) returns (xs: seq<WorldStep>)
    requires Shows(w, s) && w.running.None? && Next(s, a).Some?
    ensures WorldRun(w, xs).Some? && WorldRun(w, xs).value.running.None?
    ensures Shows(WorldRun(w, xs).value, Next(s, a).value)
  {
    hide Shows, Next, WorldNext, WorldRun, EnvironmentStep, Restoring, OwnerOf;
    if a.Manage? || a.Deliver? || a.Reap? || a.Shutdown? || a.CleanupCurrent? {
      xs := [Environment(a)];
      EnvironmentMatches(w, s, a);
      EnvironmentShows(w, s, a);
      OneStep(w, Environment(a));
    } else if a.Crash? {
      xs := [Die];
      CrashMatches(w, s);
      OneStep(w, Die);
    } else if a.Start? {
      xs := [StartUp];
      StartMatches(w, s);
      StartShows(w, s);
      OneStep(w, StartUp);
    } else if s.proc.phase.Idle? {
      CallMatches(w, s, a);
      xs := [CallActivate(a.c)];
      OneStep(w, xs[0]);
    } else {
      xs := ResumeMatches(w, s, a);
    }
  }

  lemma {:induction false} WorldConcat(w: World, xs: seq<WorldStep>, ys: seq<WorldStep>)
    requires WorldRun(w, xs).Some?
    ensures WorldRun(w, xs + ys) == WorldRun(WorldRun(w, xs).value, ys)
    decreases |xs|
  {
    hide WorldNext;
    if xs == [] {
      assert xs + ys == ys;
    } else {
      assert (xs + ys)[1..] == xs[1..] + ys;
      WorldConcat(WorldNext(w, xs[0]).value, xs[1..], ys);
    }
  }

  /** Every run of the protocol is one of the tasks. */
  lemma {:induction false} RunMatches(w: World, s: State, steps: seq<Step>) returns (xs: seq<WorldStep>)
    requires Shows(w, s) && w.running.None? && Exec(s, steps).Some?
    ensures WorldRun(w, xs).Some? && WorldRun(w, xs).value.running.None?
    ensures Shows(WorldRun(w, xs).value, Exec(s, steps).value)
    decreases |steps|
  {
    hide Shows, Next, WorldNext, Exec, WorldRun;
    if steps == [] {
      xs := [];
      NoSteps(w, s);
    } else {
      UnfoldExec(s, steps);
      var first := Matches(w, s, steps[0]);
      var rest := RunMatches(WorldRun(w, first).value, Next(s, steps[0]).value, steps[1..]);
      WorldConcat(w, first, rest);
      xs := first + rest;
    }
  }

  lemma NoSteps(w: World, s: State)
    ensures WorldRun(w, []) == Some(w) && Exec(s, []) == Some(s)
  {
  }

  /** Some run of the tasks does leak the lock. */
  lemma TasksMayLeak() returns (xs: seq<WorldStep>)
    ensures WorldRun(DEAD, xs).Some? && Leaks(WorldRun(DEAD, xs).value)
  {
    hide Shows, WorldRun, Exec;
    var s := LeakReachable();
    var steps :| Exec(INITIAL, steps) == Some(s);
    InitialReachable();
    DeadShows(INITIAL);
    xs := RunMatches(DEAD, INITIAL, steps);
    LeaksShown(WorldRun(DEAD, xs).value, s);
  }
}
