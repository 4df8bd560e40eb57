/**
 The model slot: calls captured on the active delegate, delegates retired by newer activations, and the
 reaper that closes each retired delegate once its last call has returned.  A step is one region under
 the slot's lock or one thing the event loop does; threads interleave freely between them.
 */
module ModelSlot {
  import opened Common

  /** One installed delegate. */
  datatype Entry = Entry(version: nat, inFlight: nat, retired: bool)

  datatype Reaper = Absent | Idle | Closing(entry: nat) | Gone

  /** How far the one shared shutdown is; `waits` when it found delegates still to close. */
  datatype Shutdown = NotRequested | Requested | Draining(waits: bool) | Joining | Stopping | Finished(timedOut: bool)

  /**
   `entries` are all delegates ever installed, oldest first.  `owed` are the entries some thread is about
   to hand to the event loop, `queue` those waiting for the reaper, and `attempts` and `closed` count per
   entry how often its close was begun and came back.  `calls` maps every call in flight to its entry.
   */
  datatype Slot = Slot(
    entries: seq<Entry>,
    active: Option<nat>,
    pendingRetired: nat,
    started: bool,
    drained: bool,
    owed: seq<nat>,
    queue: seq<nat>,
    attempts: seq<nat>,
    closed: seq<nat>,
    calls: map<nat, nat>,
    callCount: nat,
    reaper: Reaper,
    shutdown: Shutdown)

  datatype Step =
    | Start
    | Activate(version: nat)
    | Deactivate
    | Capture
    | Release(call: nat)
    | Enqueue(position: nat)
    | ReaperTakes
    | CloseReturns
    | RequestShutdown
    | RetireForShutdown
    | SeeDrained
    | SeeJoined
    | ReaperStops
    | FinishShutdown
    | TimeOut

  const INITIAL := Slot([], None, 0, false, false, [], [], [], [], map[], 0, Absent, NotRequested)

  predicate Serving(s: Slot) {
    s.started && s.shutdown.NotRequested?
  }

  /** The version of the newest activation, deployment models being version 0; -1 before the first. */
  function LastVersion(s: Slot): int {
    if s.entries == [] then -1 else s.entries[|s.entries| - 1].version
  }

  // ---------------------------------------------------------------------------
  // Regions under the lock

  /** An entry without calls is due at once, another when its last call returns. */
  function Retire(s: Slot, i: nat): Slot
    requires i < |s.entries|
  {
    var e := s.entries[i];
    if e.retired then s
    else
      s.(entries := s.entries[i := e.(retired := true)],
         pendingRetired := s.pendingRetired + 1,
         owed := if e.inFlight == 0 then s.owed + [i] else s.owed)
  }

  function RetireActive(s: Slot): Slot {
    if s.active.Some? && s.active.value < |s.entries| then Retire(s, s.active.value).(active := None)
    else s.(active := None)
  }

  /** None is ModelRuntimeActivationError. */
  function ActivateStep(s: Slot, version: nat): Option<Slot> {
    if !Serving(s) || version <= LastVersion(s) then None else Some(Install(RetireActive(s), version))
  }

  function Install(s: Slot, version: nat): Slot {
    s.(entries := s.entries + [Entry(version, 0, false)],
       active := Some(|s.entries|),
       attempts := s.attempts + [0],
       closed := s.closed + [0])
  }

  function DeactivateStep(s: Slot): Slot {
    if s.shutdown.NotRequested? then RetireActive(s) else s
  }

  /** None is ModelRuntimeUnavailableError. */
  function CaptureStep(s: Slot): Option<Slot> {
    if s.active.None? || s.active.value >= |s.entries| || !s.shutdown.NotRequested? then None
    else
      var i := s.active.value;
      Some(s.(entries := s.entries[i := s.entries[i].(inFlight := s.entries[i].inFlight + 1)],
              calls := s.calls[s.callCount := i],
              callCount := s.callCount + 1))
  }

  function ReleaseStep(s: Slot, call: nat): Option<Slot> {
    if call !in s.calls || s.calls[call] >= |s.entries| || s.entries[s.calls[call]].inFlight == 0 then None
    else
      var i := s.calls[call];
      var e := s.entries[i].(inFlight := s.entries[i].inFlight - 1);
      Some(s.(entries := s.entries[i := e],
              calls := s.calls - {call},
              owed := if e.retired && e.inFlight == 0 then s.owed + [i] else s.owed))
  }

  // ---------------------------------------------------------------------------
  // The event loop

  /** _enqueue_retired. */
  function EnqueueStep(s: Slot, position: nat): Option<Slot> {
    if position >= |s.owed| then None
    else Some(s.(owed := s.owed[..position] + s.owed[position + 1..],
                 queue := s.queue + [s.owed[position]],
                 drained := false))
  }

  function TakeStep(s: Slot): Option<Slot> {
    if !s.reaper.Idle? || s.queue == [] || s.queue[0] >= |s.attempts| then None
    else
      var i := s.queue[0];
      Some(s.(queue := s.queue[1..], attempts := s.attempts[i := s.attempts[i] + 1], reaper := Closing(i)))
  }

  /** The close came back, successfully or not. */
  function Closed(s: Slot, i: nat): Slot
    requires i < |s.closed| && s.pendingRetired > 0
  {
    s.(closed := s.closed[i := s.closed[i] + 1],
       pendingRetired := s.pendingRetired - 1,
       drained := s.drained || s.pendingRetired == 1)
  }

  predicate MayReturn(s: Slot) {
    s.reaper.Closing? && s.reaper.entry < |s.closed| && s.pendingRetired > 0
  }

  // ---------------------------------------------------------------------------
  // Shutdown

  function RetireForShutdownStep(s: Slot): Slot {
    var t := RetireActive(s);
    t.(shutdown := Draining(t.pendingRetired > 0), drained := t.drained && t.pendingRetired == 0)
  }

  /** Cancelling the reaper ends a close under way as far as the slot is concerned. */
  function TimeOutStep(s: Slot): Slot {
    (if MayReturn(s) then Closed(s, s.reaper.entry) else s).(reaper := Gone, shutdown := Finished(true))
  }

  function ShutdownStep(s: Slot, a: Step): Option<Slot> {
    match a
    case RequestShutdown =>
      if s.started && s.shutdown.NotRequested? then Some(s.(shutdown := Requested)) else None
    case RetireForShutdown => if s.shutdown.Requested? then Some(RetireForShutdownStep(s)) else None
    case SeeDrained =>
      if s.shutdown.Draining? && (s.shutdown.waits ==> s.drained) then Some(s.(shutdown := Joining)) else None
    case SeeJoined =>
      if s.shutdown.Joining? && s.queue == [] && s.reaper.Idle? then Some(s.(shutdown := Stopping)) else None
    case ReaperStops =>
      if s.shutdown.Stopping? && s.reaper.Idle? && s.queue == [] then Some(s.(reaper := Gone)) else None
    case FinishShutdown =>
      if s.shutdown.Stopping? && s.reaper.Gone? then Some(s.(shutdown := Finished(false))) else None
    case TimeOut =>
      if s.shutdown.Draining? || s.shutdown.Joining? || s.shutdown.Stopping? then Some(TimeOutStep(s)) else None
    case _ => None
  }

  // ---------------------------------------------------------------------------
  // All steps

  function OrSame(r: Option<Slot>, s: Slot): Slot {
    if r.Some? then r.value else s
  }

  function Next(s: Slot, a: Step): Option<Slot> {
    match a
    case Start =>
      if s.started then Some(s) else Some(s.(started := true, drained := true, reaper := Idle))
    case Activate(version) => Some(OrSame(ActivateStep(s, version), s))
    case Deactivate => Some(DeactivateStep(s))
    case Capture => Some(OrSame(CaptureStep(s), s))
    case Release(call) => ReleaseStep(s, call)
    case Enqueue(position) => EnqueueStep(s, position)
    case ReaperTakes => TakeStep(s)
    case CloseReturns => if MayReturn(s) then Some(Closed(s, s.reaper.entry).(reaper := Idle)) else None
    case _ => ShutdownStep(s, a)
  }

  function Run(s: Slot, steps: seq<Step>): Option<Slot>
    decreases |steps|
  {
    if steps == [] then Some(s)
    else match Next(s, steps[0])
      case None => None
      case Some(t) => Run(t, steps[1..])
  }
}
