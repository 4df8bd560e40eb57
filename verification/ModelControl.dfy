/**
 Testing and activating model configurations: concurrent calls of test_and_activate, each owning the
 candidate it built, the activation lock, the commit transactions on their way, and the model slot.
 A commit whose reply is lost may still run at any later time, or never.
 */
module ModelControl {
  import opened Common

  type Provider = nat

  /** The current revision of a provider's configuration. */
  datatype Head = Head(config: Uuid, revision: nat)

  /** A row of active_model_config, and equally what a slot entry carries. */
  datatype Active = Active(config: Uuid, revision: nat, version: nat)

  /** A commit on its way: `expected` is the version its compare-and-swap expects. */
  datatype Flight = Flight(provider: Provider, revision: nat, expected: nat, status: FlightStatus)

  datatype FlightStatus = Waiting | Committed(pointer: Active) | Refused

  /** Where a call is; from Loading to Committing it holds the activation lock. */
  datatype Phase = Verifying | Recording | WaitingForLock | Loading | Committing | Closing | Done

  datatype Call = Call(provider: Provider, head: Head, phase: Phase)

  /** What became of the candidate a call built. */
  datatype Candidate = Candidate(transfers: nat, closes: nat)

  /** The model slot: version 0 is the deployment model, `last` the newest version ever installed. */
  datatype Slot = Slot(active: Option<Active>, last: int, serving: bool)

  datatype State = State(
    heads: map<Provider, Head>,
    pointer: Option<Active>,
    slot: Slot,
    holder: Option<nat>,
    calls: map<nat, Call>,
    candidates: map<nat, Candidate>,
    flights: map<nat, Flight>)

  datatype Step =
    | Save(provider: Provider, expected: nat, config: Uuid)
    | Begin(call: nat, provider: Provider, revision: nat)
    | Verified(call: nat, ok: bool)
    | Recorded(call: nat)
    | AcquireLock(call: nat)
    | Loaded(call: nat, failed: bool)
    | Execute(call: nat)
    | AbortFlight(call: nat)
    | Reply(call: nat)
    | LoseReply(call: nat)
    | Cancel(call: nat)
    | CandidateClosed(call: nat)
    | StopSlot

  function Version(s: State): nat {
    if s.pointer.Some? then s.pointer.value.version else 0
  }

  /** What reconcile_runtime_model leaves: the pointer's model, the deployment model, or none. */
  function Restored(heads: map<Provider, Head>, pointer: Option<Active>, built: bool): State {
    var slot :=
      if !built then Slot(None, -1, true)
      else match pointer
        case Some(p) => Slot(Some(p), p.version, true)
        case None => Slot(Some(Active(0, 0, 0)), 0, true);
    State(heads, pointer, slot, None, map[], map[], map[])
  }

  // ---------------------------------------------------------------------------
  // The database

  /** save_draft, as far as the head of the revision chain goes. */
  function SaveStep(s: State, provider: Provider, expected: nat, config: Uuid): State {
    var revision := if provider in s.heads then s.heads[provider].revision else 0;
    if expected == revision then s.(heads := s.heads[provider := Head(config, revision + 1)]) else s
  }

  /** commit_test_and_activation: only the current revision, and only over the expected version. */
  function Commits(s: State, f: Flight): bool {
    f.provider in s.heads && s.heads[f.provider].revision == f.revision && Version(s) == f.expected
  }

  function ExecuteStep(s: State, call: nat): Option<State> {
    if call !in s.flights || !s.flights[call].status.Waiting? then None
    else
      var f := s.flights[call];
      if !Commits(s, f) then Some(s.(flights := s.flights[call := f.(status := Refused)]))
      else
        var p := Active(s.heads[f.provider].config, f.revision, f.expected + 1);
        Some(s.(pointer := Some(p), flights := s.flights[call := f.(status := Committed(p))]))
  }

  // ---------------------------------------------------------------------------
  // The slot

  function Degrade(slot: Slot): Slot {
    slot.(active := None)
  }

  predicate Accepts(slot: Slot, version: nat) {
    slot.serving && version > slot.last
  }

  function Install(slot: Slot, a: Active): Slot {
    slot.(active := Some(a), last := a.version)
  }

  // ---------------------------------------------------------------------------
  // test_and_activate

  function Move(s: State, call: nat, phase: Phase): State
    requires call in s.calls
  {
    s.(calls := s.calls[call := s.calls[call].(phase := phase)])
  }

  /** Leave the critical section with the candidate still owned. */
  function Leave(s: State, call: nat): State
    requires call in s.calls
  {
    Move(s, call, Closing).(holder := if s.holder == Some(call) then None else s.holder)
  }

  predicate At(s: State, call: nat, phase: Phase) {
    call in s.calls && s.calls[call].phase == phase
  }

  function BeginStep(s: State, call: nat, provider: Provider, revision: nat): Option<State> {
    if call in s.calls || provider !in s.heads || s.heads[provider].revision != revision then None
    else Some(s.(calls := s.calls[call := Call(provider, s.heads[provider], Verifying)],
                 candidates := s.candidates[call := Candidate(0, 0)]))
  }

  function LoadedStep(s: State, call: nat, failed: bool): Option<State> {
    if !At(s, call, Loading) then None
    else if failed then Some(Leave(s, call))
    else
      var c := s.calls[call];
      Some(Move(s, call, Committing).(flights := s.flights[call := Flight(c.provider, c.head.revision, Version(s), Waiting)]))
  }

  /** The pointer the commit returned is the one this call asked for. */
  predicate ValidPointer(s: State, call: nat, p: Active)
    requires call in s.calls && call in s.flights
  {
    p == Active(s.calls[call].head.config, s.calls[call].head.revision, s.flights[call].expected + 1)
  }

  function ReplyStep(s: State, call: nat): Option<State> {
    if !At(s, call, Committing) || call !in s.flights || call !in s.candidates then None
    else match s.flights[call].status
      case Waiting => None
      case Refused => Some(Leave(s, call))
      case Committed(p) =>
        if ValidPointer(s, call, p) && Accepts(s.slot, p.version) then
          var t := Leave(s, call).(slot := Install(s.slot, p));
          Some(Move(t, call, Done).(candidates := s.candidates[call := s.candidates[call].(transfers := s.candidates[call].transfers + 1)]))
        else Some(Leave(s, call).(slot := Degrade(s.slot)))
  }

  function Next(s: State, a: Step): Option<State> {
    match a
    case Save(provider, expected, config) => Some(SaveStep(s, provider, expected, config))
    case Begin(call, provider, revision) => BeginStep(s, call, provider, revision)
    case Verified(call, ok) =>
      if At(s, call, Verifying) then Some(Move(s, call, if ok then WaitingForLock else Recording)) else None
    case Recorded(call) => if At(s, call, Recording) then Some(Leave(s, call)) else None
    case AcquireLock(call) =>
      if At(s, call, WaitingForLock) && s.holder.None?
      then Some(Move(s, call, Loading).(holder := Some(call)))
      else None
    case Loaded(call, failed) => LoadedStep(s, call, failed)
    case Execute(call) => ExecuteStep(s, call)
    case AbortFlight(call) =>
      if call in s.flights && s.flights[call].status.Waiting?
      then Some(s.(flights := s.flights[call := s.flights[call].(status := Refused)]))
      else None
    case Reply(call) => ReplyStep(s, call)
    case LoseReply(call) =>
      if At(s, call, Committing) then Some(Leave(s, call).(slot := Degrade(s.slot))) else None
    case Cancel(call) =>
      if At(s, call, Verifying) || At(s, call, Recording) || At(s, call, WaitingForLock) || At(s, call, Loading)
      then Some(Leave(s, call))
      else None
    case CandidateClosed(call) =>
      if At(s, call, Closing) && call in s.candidates
      then Some(Move(s, call, Done).(candidates := s.candidates[call := s.candidates[call].(closes := s.candidates[call].closes + 1)]))
      else None
    case StopSlot => Some(s.(slot := Slot(None, s.slot.last, false)))
  }

  function Run(s: State, steps: seq<Step>): Option<State>
    decreases |steps|
  {
    if steps == [] then Some(s)
    else match Next(s, steps[0])
      case None => None
      case Some(t) => Run(t, steps[1..])
  }
}
