/**
 ManagedModel.aclose: any number of concurrent calls start one close task.  The task is looked for
 without the lock first and again under it.
 */
module ManagedModel {
  import opened Common

  datatype Caller = Entered | WaitingForLock | HoldingLock | Awaiting | Returned

  datatype Task = NoTask | Created | Running | Done

  datatype State = State(task: Task, lock: Option<nat>, callers: map<nat, Caller>, callbacks: nat)

  datatype Step =
    | Call(caller: nat)
    | LookForTask(caller: nat)
    | AcquireLock(caller: nat)
    | StartTask(caller: nat)
    | RunCallback
    | CallbackEnds
    | Return(caller: nat)

  const INITIAL := State(NoTask, None, map[], 0)

  function Move(s: State, caller: nat, to: Caller): State {
    s.(callers := s.callers[caller := to])
  }

  function Next(s: State, a: Step): Option<State> {
    match a
    case Call(c) => if c in s.callers then None else Some(Move(s, c, Entered))
    case LookForTask(c) =>
      if c !in s.callers || s.callers[c] != Entered then None
      else Some(Move(s, c, if s.task.NoTask? then WaitingForLock else Awaiting))
    case AcquireLock(c) =>
      if c !in s.callers || s.callers[c] != WaitingForLock || s.lock.Some? then None
      else Some(Move(s, c, HoldingLock).(lock := Some(c)))
    case StartTask(c) =>
      if c !in s.callers || s.callers[c] != HoldingLock then None
      else Some(Move(s, c, Awaiting).(lock := None, task := if s.task.NoTask? then Created else s.task))
    case RunCallback =>
      if s.task.Created? then Some(s.(task := Running, callbacks := s.callbacks + 1)) else None
    case CallbackEnds => if s.task.Running? then Some(s.(task := Done)) else None
    case Return(c) =>
      if c in s.callers && s.callers[c] == Awaiting && s.task.Done? then Some(Move(s, c, Returned)) else None
  }

  function Run(s: State, steps: seq<Step>): Option<State>
    decreases |steps|
  {
    if steps == [] then Some(s)
    else match Next(s, steps[0])
      case None => None
      case Some(t) => Run(t, steps[1..])
  }

  ghost predicate Inv(s: State) {
    && s.callbacks == (if s.task.Running? || s.task.Done? then 1 else 0)
    && (forall c :: c in s.callers && s.callers[c] == HoldingLock ==> s.lock == Some(c))
    && (s.lock.Some? ==> s.lock.value in s.callers && s.callers[s.lock.value] == HoldingLock)
    && (forall c :: c in s.callers && s.callers[c] == Awaiting ==> !s.task.NoTask?)
    && (forall c :: c in s.callers && s.callers[c] == Returned ==> s.task.Done?)
  }

  lemma {:induction false} RunKeeps(s: State, steps: seq<Step>)
    requires Inv(s) && Run(s, steps).Some?
    ensures Inv(Run(s, steps).value)
    decreases |steps|
  {
    if steps != [] {
      RunKeeps(Next(s, steps[0]).value, steps[1..]);
    }
  }

  /** The callback runs at most once however calls overlap, and has run when any of them returns. */
  lemma ClosesOnce(steps: seq<Step>)
    requires Run(INITIAL, steps).Some?
    ensures
      var s := Run(INITIAL, steps).value;
      && s.callbacks <= 1
      && (forall c :: c in s.callers && s.callers[c] == Returned ==> s.callbacks == 1 && s.task.Done?)
  {
    RunKeeps(INITIAL, steps);
  }

  // ---------------------------------------------------------------------------
  // Every call can return

  lemma Then(s: State, a: Step, rest: seq<Step>)
    requires Next(s, a).Some?
    ensures Run(s, [a] + rest) == Run(Next(s, a).value, rest)
  {
    hide Next;
    assert ([a] + rest)[1..] == rest;
  }

  /** The run ends with the caller back and the callback run once. */
  ghost predicate Returns(s: State, steps: seq<Step>, c: nat) {
    Run(s, steps).Some? && At(Run(s, steps).value, c, Returned) && Run(s, steps).value.callbacks == 1
  }

  predicate At(s: State, c: nat, where: Caller) {
    c in s.callers && s.callers[c] == where
  }

  lemma {:induction false} AwaitingReturns(s: State, c: nat) returns (steps: seq<Step>)
    requires Inv(s) && At(s, c, Awaiting)
    ensures Returns(s, steps, c)
    decreases if s.task.Created? then 2 else if s.task.Running? then 1 else 0
  {
    if s.task.Done? {
      assert Run(Next(s, Return(c)).value, []) == Next(s, Return(c));
      Then(s, Return(c), []);
      steps := [Return(c)] + [];
    } else {
      var a := if s.task.Created? then RunCallback else CallbackEnds;
      var rest := AwaitingReturns(Next(s, a).value, c);
      Then(s, a, rest);
      steps := [a] + rest;
    }
  }

  lemma HoldingReturns(s: State, c: nat) returns (steps: seq<Step>)
    requires Inv(s) && At(s, c, HoldingLock)
    ensures Returns(s, steps, c)
  {
    var rest := AwaitingReturns(Next(s, StartTask(c)).value, c);
    Then(s, StartTask(c), rest);
    steps := [StartTask(c)] + rest;
  }

  lemma WaitingReturns(s: State, c: nat) returns (steps: seq<Step>)
    requires Inv(s) && At(s, c, WaitingForLock)
    ensures Returns(s, steps, c)
  {
    if s.lock.Some? {
      var a := StartTask(s.lock.value);
      var t := Next(s, a).value;
      var rest := WaitingGetsLock(t, c);
      Then(s, a, rest);
      steps := [a] + rest;
    } else {
      steps := WaitingGetsLock(s, c);
    }
  }

  lemma WaitingGetsLock(s: State, c: nat) returns (steps: seq<Step>)
    requires Inv(s) && At(s, c, WaitingForLock) && s.lock.None?
    ensures Returns(s, steps, c)
  {
    var rest := HoldingReturns(Next(s, AcquireLock(c)).value, c);
    Then(s, AcquireLock(c), rest);
    steps := [AcquireLock(c)] + rest;
  }

  /** Wherever a call is, it can go on to return, and the callback has run once by then. */
  lemma CallReturns(before: seq<Step>, c: nat) returns (steps: seq<Step>)
    requires Run(INITIAL, before).Some? && c in Run(INITIAL, before).value.callers
    ensures Returns(Run(INITIAL, before).value, steps, c)
  {
    var s := Run(INITIAL, before).value;
    RunKeeps(INITIAL, before);
    match s.callers[c]
    case Entered =>
      var t := Next(s, LookForTask(c)).value;
      var rest;
      if s.task.NoTask? {
        rest := WaitingReturns(t, c);
      } else {
        rest := AwaitingReturns(t, c);
      }
      Then(s, LookForTask(c), rest);
      steps := [LookForTask(c)] + rest;
    case WaitingForLock => steps := WaitingReturns(s, c);
    case HoldingLock => steps := HoldingReturns(s, c);
    case Awaiting => steps := AwaitingReturns(s, c);
    case Returned => steps := [];
  }
}
