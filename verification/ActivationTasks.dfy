/**
 The tasks behind the activation protocol: any number of calls and background tasks of one process, each
 with its own place in its code and its own `transferred` flag, around one lock that knows nobody.  A task
 runs alone from one await to the next; each `finally` clause is a step that releases as the code does.
 */
module ActivationTasks {
  import opened Common
  import opened Registry
  import opened Activation

  /**
   Where a task stands: at the await its phase names, about to run its `finally` clause, at the shield
   around the task it started, or over.
   */
  datatype Place = Suspended(phase: Phase) | AtFinally | Watching(child: nat) | Over

  /** `owner` is the coroutine the task runs, `grant` numbers the acquisition it works under. */
  datatype Task = Task(owner: Owner, place: Place, transferred: bool, grant: nat)

  datatype LockEvent = Acquired(grant: nat) | Released(grant: nat)

  /**
   `proc` is what all tasks share, its phase and lock left unused.  `running` is the task that has the
   event loop between two awaits, and `raised` tells that a release of a free lock raised an error.
   */
  datatype World = World(
    db: Db,
    sent: set<Request>,
    proc: Process,
    up: bool,
    lock: bool,
    tasks: seq<Task>,
    running: Option<nat>,
    raised: bool,
    log: seq<LockEvent>)

  datatype WorldStep =
    | Environment(a: Step)
    | Die
    | StartUp
    | CallActivate(c: Command)
    | Resume(i: nat, a: Step)
    | Wake(i: nat)
    | RunFinally(i: nat)

  function Shared(p: Process): Process {
    p.(phase := Idle, lock := false)
  }

  const DEAD := World(EMPTY, {}, Shared(NO_PROCESS), false, false, [], None, false, [])

  // ---------------------------------------------------------------------------
  // The lock

  /** `if locked(): fail busy`, then an acquire that cannot wait. */
  function Enter(w: World, owner: Owner, phase: Phase): World {
    if w.lock then w
    else
      var grant := |w.log| / 2;
      w.(lock := true, tasks := w.tasks + [Task(owner, Suspended(phase), false, grant)], log := w.log + [Acquired(grant)])
  }

  function Unlock(w: World, t: Task): World {
    w.(lock := false, log := w.log + [Released(t.grant)])
  }

  /** The end of the `finally` clause of each coroutine. */
  function Finally(w: World, t: Task): World {
    match t.owner
    case RestoreCall => if w.lock then Unlock(w, t) else w.(raised := true)
    case ActivateCallTask => if !t.transferred && w.lock then Unlock(w, t) else w
    case PrepareCleanup => if w.lock then Unlock(w, t) else w
    case CommitTask => if !t.transferred && w.lock then Unlock(w, t) else w
    case ReconcileTask => if w.lock then Unlock(w, t) else w
    case NoOwner => w
  }

  // ---------------------------------------------------------------------------
  // Tasks

  /** The task a coroutine starts when it gets to `next`. */
  function Started(owner: Owner, next: Phase): Owner {
    if owner.ActivateCallTask? && next.Abandoned? then PrepareCleanup
    else if owner.ActivateCallTask? && next.Committing? then CommitTask
    else if owner.CommitTask? && next.ReconcileTop? then ReconcileTask
    else NoOwner
  }

  /** A task that stopped at `next`: it waits there, leaves its block, or hands over to a task it starts. */
  function Continue(w: World, i: nat, next: Phase): World
    requires i < |w.tasks|
  {
    var t := w.tasks[i];
    var child := Started(t.owner, next);
    if next.Idle? then w.(tasks := w.tasks[i := t.(place := AtFinally)], running := Some(i))
    else if next.Leaked? then w.(tasks := w.tasks[i := t.(place := Over)])
    else if child.NoOwner? then w.(tasks := w.tasks[i := t.(place := Suspended(next))])
    else
      var started := Task(child, Suspended(next), false, t.grant);
      var watches := child.CommitTask?;
      var handed := t.(transferred := true, place := if watches then Watching(|w.tasks|) else AtFinally);
      w.(tasks := w.tasks[i := handed] + [started], running := if watches then None else Some(i))
  }

  /** The state a task sees that is suspended at the phase. */
  function Body(w: World, phase: Phase): State {
    State(w.db, w.sent, w.proc.(phase := phase, lock := true))
  }

  function WithBody(w: World, s: State): World {
    w.(db := s.db, sent := s.sent, proc := Shared(s.proc))
  }

  ghost function ResumeStep(w: World, i: nat, a: Step): Option<World> {
    if w.running.Some? || i >= |w.tasks| || !w.tasks[i].place.Suspended? || w.tasks[i].place.phase.Idle? then None
    else
      var s := Body(w, w.tasks[i].place.phase);
      match if a.AnswerRequest? then AnswerStep(s, a.clockAdvanced) else CoordinatorStep(s, a)
      case None => None
      case Some(t) => Some(Continue(WithBody(w, t), i, t.proc.phase))
  }

  predicate Restoring(w: World) {
    exists i :: 0 <= i < |w.tasks| && w.tasks[i].owner.RestoreCall? && !w.tasks[i].place.Over?
  }

  ghost function EnvironmentStep(w: World, a: Step): Option<World> {
    if !(a.Manage? || a.Deliver? || a.Reap? || a.Shutdown? || a.CleanupCurrent?) then None
    else if a.Shutdown? && (!w.up || Restoring(w)) then None
    else match Next(Body(w, Idle), a)
      case None => None
      case Some(t) => Some(WithBody(w, t))
  }

  ghost function WorldNext(w: World, x: WorldStep): Option<World> {
    match x
    case Environment(a) => EnvironmentStep(w, a)
    case Die => Some(DEAD.(db := w.db, sent := w.sent))
    case StartUp => if w.up then None else Some(Enter(w.(up := true, proc := Shared(NO_PROCESS)), RestoreCall, RestoreReading))
    case CallActivate(c) =>
      if !w.up || w.running.Some? then None
      else if w.proc.draining || w.proc.degraded then Some(w)
      else Some(Enter(w, ActivateCallTask, Loading(c)))
    case Resume(i, a) => ResumeStep(w, i, a)
    case Wake(i) =>
      if w.running.Some? || i >= |w.tasks| || !w.tasks[i].place.Watching? then None
      else Some(w.(tasks := w.tasks[i := w.tasks[i].(place := AtFinally)], running := Some(i)))
    case RunFinally(i) =>
      if w.running != Some(i) || i >= |w.tasks| || !w.tasks[i].place.AtFinally? then None
      else Some(Finally(w.(tasks := w.tasks[i := w.tasks[i].(place := Over)], running := None), w.tasks[i]))
  }

  ghost function WorldRun(w: World, xs: seq<WorldStep>): Option<World>
    decreases |xs|
  {
    if xs == [] then Some(w)
    else match WorldNext(w, xs[0])
      case None => None
      case Some(v) => WorldRun(v, xs[1..])
  }
}
