/**
 The generation slot: leases on the current and the retired generation, the reservation of a
 replacement, and the reaper with its wakeups.  A step is one region under the slot's lock, or one
 thing the event loop does between two of them; steps of different threads interleave freely.
 */
module GenerationSlot {
  import opened Common

  /** One generation in the slot; `root` is None for the unconfigured one, which has no directory. */
  datatype Entry = Entry(number: nat, root: Option<Uuid>, references: nat, reaping: bool)

  datatype Reaper = NoTask | Waiting | Checking | Cleaning | Ended

  /**
   `leases` maps every live lease to the entry it was captured on.  A notification is owed while its
   thread is between the region that asked for it and the call of call_soon_threadsafe, and scheduled
   until the event loop runs it.  `removed` records the entries whose directory the reaper removed.
   */
  datatype Slot = Slot(
    current: Entry,
    retired: Option<Entry>,
    reservation: Option<nat>,
    accepting: bool,
    leases: map<nat, nat>,
    leaseCount: nat,
    doneTokens: set<nat>,
    tokenCount: nat,
    reapWaiters: nat,
    leaseWaiters: nat,
    wake: Wake,
    removed: set<nat>)

  datatype Wake = Wake(reaper: Reaper, looping: bool, isSet: bool, scheduled: nat, owed: nat, closing: bool)

  datatype Step =
    | Capture
    | Release(lease: nat)
    | Reserve
    | Commit(token: nat, root: Option<Uuid>)
    | Cancel(token: nat)
    | SetAccepting(value: bool)
    | WaitReaped
    | WaitLeases
    | Start
    | BeginClose
    | FinishClose
    | Notify
    | RunCallback
    | ReaperWakes
    | ReaperChecks
    | CleanerReturns

  const ASLEEP := Wake(NoTask, false, false, 0, 0, false)

  function Initial(root: Option<Uuid>): Slot {
    Slot(Entry(0, root, 0, false), None, None, true, map[], 0, {}, 0, 0, 0, ASLEEP, {})
  }

  function Owe(w: Wake): Wake {
    w.(owed := w.owed + 1)
  }

  // ---------------------------------------------------------------------------
  // Leases

  predicate LeasesDrained(s: Slot) {
    s.current.references == 0 && (s.retired.None? || s.retired.value.references == 0)
  }

  /** None is GenerationUnavailableError. */
  function CaptureStep(s: Slot): Option<Slot> {
    if !s.accepting then None
    else Some(s.(current := s.current.(references := s.current.references + 1),
                 leases := s.leases[s.leaseCount := s.current.number],
                 leaseCount := s.leaseCount + 1))
  }

  function DropReference(e: Entry): Entry
    requires e.references > 0
  {
    e.(references := e.references - 1)
  }

  /** A lease releases once; the entry it names is found by identity. */
  function ReleaseStep(s: Slot, lease: nat): Slot {
    if lease !in s.leases then s else ReleasedFrom(s.(leases := s.leases - {lease}), s.leases[lease])
  }

  function ReleasedFrom(s: Slot, number: nat): Slot {
    if number == s.current.number && s.current.references > 0 then
      WakeLeaseWaiters(s.(current := DropReference(s.current)))
    else if s.retired.Some? && s.retired.value.number == number && s.retired.value.references > 0 then
      var retired := DropReference(s.retired.value);
      var t := WakeLeaseWaiters(s.(retired := Some(retired)));
      if retired.references == 0 then t.(wake := Owe(t.wake)) else t
    else s
  }

  function WakeLeaseWaiters(s: Slot): Slot {
    if LeasesDrained(s) then s.(leaseWaiters := 0) else s
  }

  // ---------------------------------------------------------------------------
  // Replacement

  /** None is GenerationCapacityError. */
  function ReserveStep(s: Slot): Option<Slot> {
    if s.reservation.Some? || s.retired.Some? then None
    else Some(s.(reservation := Some(s.tokenCount), tokenCount := s.tokenCount + 1))
  }

  function CommitStep(s: Slot, token: nat, root: Option<Uuid>): Option<Slot> {
    if token in s.doneTokens || s.reservation != Some(token) || s.retired.Some? then None
    else Some(Replace(s, root).(doneTokens := s.doneTokens + {token}))
  }

  /** The old entry retires if it has leases or a directory; without leases it is due for cleaning. */
  function Replace(s: Slot, root: Option<Uuid>): Slot {
    var t := s.(current := Entry(s.current.number + 1, root, 0, false), reservation := None);
    if s.current.references > 0 then t.(retired := Some(s.current))
    else if s.current.root.Some? then t.(retired := Some(s.current), wake := Owe(s.wake))
    else t
  }

  function CancelStep(s: Slot, token: nat): Slot {
    if token in s.doneTokens then s
    else s.(reservation := if s.reservation == Some(token) then None else s.reservation,
            doneTokens := s.doneTokens + {token})
  }

  // ---------------------------------------------------------------------------
  // Reaper

  predicate Reapable(s: Slot) {
    s.retired.Some? && s.retired.value.references == 0 && !s.retired.value.reaping
  }

  function StartStep(s: Slot): Option<Slot> {
    if !s.wake.reaper.NoTask? then None
    else Some(s.(wake := Wake(Waiting, true, false, 0, s.wake.owed + 1, false)))
  }

  function BeginCloseStep(s: Slot): Slot {
    if s.wake.reaper.NoTask? then s else s.(wake := Owe(s.wake).(closing := true))
  }

  function CheckStep(s: Slot): Slot {
    if Reapable(s) then
      s.(retired := Some(s.retired.value.(reaping := true)), wake := s.wake.(reaper := Cleaning))
    else if s.wake.closing then s.(wake := s.wake.(reaper := Ended))
    else s.(wake := s.wake.(reaper := Waiting))
  }

  function CleanedStep(s: Slot): Slot {
    s.(retired := None,
       reapWaiters := 0,
       wake := s.wake.(reaper := Checking),
       removed := if s.retired.Some? then s.removed + {s.retired.value.number} else s.removed)
  }

  function WakeStep(s: Slot, a: Step): Option<Slot> {
    var w := s.wake;
    match a
    case Start => StartStep(s)
    case BeginClose => Some(BeginCloseStep(s))
    case FinishClose => if w.reaper.Ended? then Some(s.(wake := w.(reaper := NoTask, looping := false))) else None
    case Notify =>
      if w.owed == 0 then None
      else Some(s.(wake := w.(owed := w.owed - 1, scheduled := if w.looping then w.scheduled + 1 else w.scheduled)))
    case RunCallback =>
      if w.scheduled == 0 then None else Some(s.(wake := w.(scheduled := w.scheduled - 1, isSet := true)))
    case ReaperWakes =>
      if w.reaper.Waiting? && w.isSet then Some(s.(wake := w.(reaper := Checking, isSet := false))) else None
    case ReaperChecks => if w.reaper.Checking? then Some(CheckStep(s)) else None
    case CleanerReturns => if w.reaper.Cleaning? then Some(CleanedStep(s)) else None
    case _ => None
  }

  // ---------------------------------------------------------------------------
  // All steps

  /** A refused call leaves the slot as it was. */
  function OrSame(r: Option<Slot>, s: Slot): Slot {
    if r.Some? then r.value else s
  }

  /** Only reservations handed out can be committed or cancelled. */
  function Next(s: Slot, a: Step): Option<Slot> {
    match a
    case Capture => Some(OrSame(CaptureStep(s), s))
    case Release(lease) => Some(ReleaseStep(s, lease))
    case Reserve => Some(OrSame(ReserveStep(s), s))
    case Commit(token, root) => if token < s.tokenCount then Some(OrSame(CommitStep(s, token, root), s)) else None
    case Cancel(token) => if token < s.tokenCount then Some(CancelStep(s, token)) else None
    case SetAccepting(value) => Some(s.(accepting := value))
    case WaitReaped => Some(if s.retired.None? then s else s.(reapWaiters := s.reapWaiters + 1))
    case WaitLeases => Some(if LeasesDrained(s) then s else s.(leaseWaiters := s.leaseWaiters + 1))
    case _ => WakeStep(s, a)
  }

  function Run(s: Slot, steps: seq<Step>): Option<Slot>
    decreases |steps|
  {
    if steps == [] then Some(s)
    else match Next(s, steps[0])
      case None => None
      case Some(t) => Run(t, steps[1..])
  }
}
