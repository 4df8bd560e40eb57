/**
 The slot's synchronous stream iterator: threads that call next and close at the same time.  The inner
 iterator is closed once, never while it is being advanced, and the captured call is released once.
 */
module SyncStream {
  import opened Common

  /** Where a thread is inside __next__ or close; a failed next goes on to close. */
  datatype Thread =
    | InNext
    | Failing
    | EnteringClose
    | WaitingForOperation
    | WaitingForCloser
    | InClose
    | Released
    | Returned

  datatype State = State(
    operationActive: bool,
    closeRequested: bool,
    closing: bool,
    released: bool,
    innerCloses: nat,
    releases: nat,
    threads: map<nat, Thread>)

  datatype Step =
    | CallNext(thread: nat)
    | NextReturns(thread: nat, failed: bool)
    | FinishFailed(thread: nat)
    | CallClose(thread: nat)
    | EnterClose(thread: nat)
    | WakeUp(thread: nat)
    | InnerCloseReturns(thread: nat)
    | FinishClose(thread: nat)

  const INITIAL := State(false, false, false, false, 0, 0, map[])

  predicate At(s: State, thread: nat, where: Thread) {
    thread in s.threads && s.threads[thread] == where
  }

  predicate Free(s: State, thread: nat) {
    thread !in s.threads || s.threads[thread] == Returned
  }

  function Move(s: State, thread: nat, to: Thread): State {
    s.(threads := s.threads[thread := to])
  }

  /** The part of close under the condition, from whichever wait the thread is in. */
  function TryClose(s: State, thread: nat): State {
    if s.operationActive then Move(s, thread, WaitingForOperation)
    else if s.closing && !s.released then Move(s, thread, WaitingForCloser)
    else if s.released then Move(s, thread, Returned)
    else Move(s, thread, InClose).(closing := true, innerCloses := s.innerCloses + 1)
  }

  function Next(s: State, a: Step): Option<State> {
    match a
    case CallNext(t) =>
      if !Free(s, t) then None
      else if s.closeRequested || s.operationActive then Some(s)
      else Some(Move(s, t, InNext).(operationActive := true))
    case NextReturns(t, failed) =>
      if !At(s, t, InNext) then None
      else if failed then Some(Move(s, t, Failing))
      else Some(Move(s, t, Returned).(operationActive := false))
    case FinishFailed(t) =>
      if At(s, t, Failing) then Some(Move(s, t, EnteringClose).(operationActive := false)) else None
    case CallClose(t) => if Free(s, t) then Some(Move(s, t, EnteringClose)) else None
    case EnterClose(t) => if At(s, t, EnteringClose) then Some(TryClose(s.(closeRequested := true), t)) else None
    case WakeUp(t) =>
      if At(s, t, WaitingForOperation) && !s.operationActive then Some(TryClose(s, t))
      else if At(s, t, WaitingForCloser) && !(s.closing && !s.released) then Some(TryClose(s, t))
      else None
    case InnerCloseReturns(t) =>
      if At(s, t, InClose) then Some(Move(s, t, Released).(releases := s.releases + 1)) else None
    case FinishClose(t) =>
      if At(s, t, Released) then Some(Move(s, t, Returned).(released := true, closing := false)) else None
  }

  function Run(s: State, steps: seq<Step>): Option<State>
    decreases |steps|
  {
    if steps == [] then Some(s)
    else match Next(s, steps[0])
      case None => None
      case Some(t) => Run(t, steps[1..])
  }

  predicate Advancing(s: State, thread: nat) {
    At(s, thread, InNext) || At(s, thread, Failing)
  }

  predicate Closes(s: State, thread: nat) {
    At(s, thread, InClose) || At(s, thread, Released)
  }

  predicate Waits(s: State, thread: nat) {
    At(s, thread, WaitingForOperation) || At(s, thread, WaitingForCloser)
  }

  /** One thread advances the inner iterator at a time. */
  ghost predicate OperationInv(s: State) {
    && (forall t :: Advancing(s, t) ==> s.operationActive)
    && (forall t, u :: Advancing(s, t) && Advancing(s, u) ==> t == u)
    && (s.operationActive ==> exists t :: Advancing(s, t))
  }

  /** One thread closes it, after the last operation. */
  ghost predicate CloserInv(s: State) {
    && (forall t :: Closes(s, t) ==> s.closing)
    && (forall t, u :: Closes(s, t) && Closes(s, u) ==> t == u)
    && (forall t :: Closes(s, t) ==> s.releases == (if At(s, t, Released) then 1 else 0))
    && (s.closing ==> exists t :: Closes(s, t))
  }

  ghost predicate Inv(s: State) {
    && OperationInv(s)
    && CloserInv(s)
    && (s.closing || s.released ==> s.closeRequested && !s.operationActive)
    && !(s.closing && s.released)
    && s.innerCloses == (if s.closing || s.released then 1 else 0)
    && (s.released ==> s.releases == 1)
    && (!s.closing && !s.released ==> s.releases == 0)
    && (forall t :: Waits(s, t) ==> s.closeRequested)
  }

  /** A step moves one thread only. */
  lemma OthersStay(s: State, a: Step)
    requires Next(s, a).Some?
    ensures forall u, where :: u != a.thread ==> (At(Next(s, a).value, u, where) <==> At(s, u, where))
  {
  }

  lemma OthersStayPut(s: State, a: Step)
    requires Next(s, a).Some?
    ensures forall u :: u != a.thread ==> (Advancing(Next(s, a).value, u) <==> Advancing(s, u))
    ensures forall u :: u != a.thread ==> (Closes(Next(s, a).value, u) <==> Closes(s, u))
    ensures forall u :: u != a.thread ==> (Waits(Next(s, a).value, u) <==> Waits(s, u))
    ensures forall u :: u != a.thread ==> (At(Next(s, a).value, u, InClose) <==> At(s, u, InClose))
    ensures forall u :: u != a.thread ==> (At(Next(s, a).value, u, Released) <==> At(s, u, Released))
  {
    OthersStay(s, a);
    hide Next, At;
  }

  lemma OperationKept(s: State, a: Step)
    requires Inv(s) && Next(s, a).Some?
    ensures OperationInv(Next(s, a).value)
  {
    OthersStayPut(s, a);
    assert Advancing(s, a.thread) <==> At(s, a.thread, InNext) || At(s, a.thread, Failing);
    if Next(s, a).value.operationActive {
      AdvancerExists(s, a);
    }
  }

  lemma AdvancerExists(s: State, a: Step)
    requires Inv(s) && Next(s, a).Some? && Next(s, a).value.operationActive
    ensures exists t :: Advancing(Next(s, a).value, t)
  {
    var t := Next(s, a).value;
    if s.operationActive {
      var u :| Advancing(s, u);
      assert Advancing(t, u);
    } else {
      assert Advancing(t, a.thread);
    }
  }

  lemma CloserKept(s: State, a: Step)
    requires Inv(s) && Next(s, a).Some?
    ensures CloserInv(Next(s, a).value)
  {
    OthersStayPut(s, a);
    assert Closes(s, a.thread) <==> At(s, a.thread, InClose) || At(s, a.thread, Released);
    if Next(s, a).value.closing {
      CloserExists(s, a);
    }
  }

  lemma NextKeeps(s: State, a: Step)
    requires Inv(s) && Next(s, a).Some?
    ensures Inv(Next(s, a).value)
  {
    OperationKept(s, a);
    CloserKept(s, a);
    assert Closes(s, a.thread) <==> At(s, a.thread, InClose) || At(s, a.thread, Released);
    assert Waits(s, a.thread) <==> At(s, a.thread, WaitingForOperation) || At(s, a.thread, WaitingForCloser);
    OthersStayPut(s, a);
    hide OperationInv;
  }

  lemma CloserExists(s: State, a: Step)
    requires Inv(s) && Next(s, a).Some? && Next(s, a).value.closing
    ensures exists t :: Closes(Next(s, a).value, t)
  {
    var t := Next(s, a).value;
    if s.closing {
      var u :| Closes(s, u);
      assert Closes(t, u);
    } else {
      assert Closes(t, a.thread);
    }
  }

  lemma {:induction false} RunKeeps(s: State, steps: seq<Step>)
    requires Inv(s) && Run(s, steps).Some?
    ensures Inv(Run(s, steps).value)
    decreases |steps|
  {
    if steps != [] {
      NextKeeps(s, steps[0]);
      hide Inv, Next;
      RunKeeps(Next(s, steps[0]).value, steps[1..]);
    }
  }

  /** Any number of threads close the inner iterator and release the captured call at most once. */
  lemma ReleasedOnce(steps: seq<Step>, thread: nat)
    requires Run(INITIAL, steps).Some?
    ensures
      var s := Run(INITIAL, steps).value;
      && s.releases <= s.innerCloses <= 1
      && (s.released ==> s.releases == 1)
      && (At(s, thread, InClose) ==> forall t :: !Advancing(s, t))
  {
    RunKeeps(INITIAL, steps);
    assert Closes(Run(INITIAL, steps).value, thread) <== At(Run(INITIAL, steps).value, thread, InClose);
    CloserReleases(Run(INITIAL, steps).value);
  }

  lemma CloserReleases(s: State)
    requires Inv(s)
    ensures s.releases <= s.innerCloses
  {
    if s.closing {
      var t :| Closes(s, t);
    }
  }

  /** When a call of close comes back the captured call has been released. */
  lemma CloseReleases(s: State, a: Step)
    requires Inv(s) && Next(s, a).Some?
    requires a.EnterClose? || a.WakeUp? || a.FinishClose?
    requires At(Next(s, a).value, a.thread, Returned)
    ensures Next(s, a).value.released && Next(s, a).value.releases == 1
  {
  }

  // ---------------------------------------------------------------------------
  // Closing on failure, and the way to the end of close

  /** The thread is on its way through close, or has come back from it after the release. */
  predicate Ending(s: State, thread: nat) {
    || At(s, thread, Failing) || At(s, thread, EnteringClose) || Waits(s, thread) || Closes(s, thread)
    || (At(s, thread, Returned) && s.released && s.closeRequested)
  }

  lemma EndingStays(s: State, a: Step, thread: nat)
    requires Inv(s) && Next(s, a).Some? && Ending(s, thread)
    ensures Ending(Next(s, a).value, thread)
  {
    OthersStay(s, a);
  }

  lemma {:induction false} EndingReleases(s: State, steps: seq<Step>, thread: nat)
    requires Inv(s) && Ending(s, thread) && Run(s, steps).Some?
    requires At(Run(s, steps).value, thread, Returned)
    ensures Run(s, steps).value.released && Run(s, steps).value.releases == 1
    decreases |steps|
  {
    RunKeeps(s, steps);
    if steps != [] {
      NextKeeps(s, steps[0]);
      EndingStays(s, steps[0], thread);
      hide Inv, Next, Ending, At;
      EndingReleases(Next(s, steps[0]).value, steps[1..], thread);
    }
  }

  /** A next that failed comes back only when the captured call has been released. */
  lemma FailedNextReleases(before: seq<Step>, after: seq<Step>, thread: nat)
    requires Run(INITIAL, before).Some?
    requires Run(Run(INITIAL, before).value, [NextReturns(thread, true)] + after).Some?
    requires At(Run(Run(INITIAL, before).value, [NextReturns(thread, true)] + after).value, thread, Returned)
    ensures
      var t := Run(Run(INITIAL, before).value, [NextReturns(thread, true)] + after).value;
      t.released && t.releases == 1
  {
    var s, a := Run(INITIAL, before).value, NextReturns(thread, true);
    assert ([a] + after)[1..] == after;
    RunKeeps(INITIAL, before);
    NextKeeps(s, a);
    assert At(Next(s, a).value, thread, Failing);
    hide Inv, Next, At;
    EndingReleases(Next(s, a).value, after, thread);
  }

  lemma Then(s: State, a: Step, rest: seq<Step>)
    requires Next(s, a).Some?
    ensures Run(s, [a] + rest) == Run(Next(s, a).value, rest)
  {
    hide Next;
    assert ([a] + rest)[1..] == rest;
  }

  ghost predicate Ends(s: State, steps: seq<Step>, thread: nat) {
    Run(s, steps).Some? && At(Run(s, steps).value, thread, Returned) && Run(s, steps).value.released
  }

  /** The thread that closes gets to the end. */
  lemma CloserEnds(s: State, thread: nat) returns (steps: seq<Step>)
    requires Inv(s) && Closes(s, thread)
    ensures Ends(s, steps, thread)
  {
    if At(s, thread, InClose) {
      var t := Next(s, InnerCloseReturns(thread)).value;
      Then(t, FinishClose(thread), []);
      Then(s, InnerCloseReturns(thread), [FinishClose(thread)] + []);
      steps := [InnerCloseReturns(thread)] + ([FinishClose(thread)] + []);
    } else {
      Then(s, FinishClose(thread), []);
      steps := [FinishClose(thread)] + [];
    }
  }

  /** Where no operation is under way, a thread inside close ends it, after the thread that closes if it is another. */
  lemma IdleEnds(s: State, thread: nat) returns (steps: seq<Step>)
    requires Inv(s) && !s.operationActive && !s.closing
    requires At(s, thread, EnteringClose) || Waits(s, thread)
    ensures Ends(s, steps, thread)
  {
    var a := if At(s, thread, EnteringClose) then EnterClose(thread) else WakeUp(thread);
    NextKeeps(s, a);
    var t := Next(s, a).value;
    var rest: seq<Step> := [];
    if !s.released {
      rest := CloserEnds(t, thread);
    }
    Then(s, a, rest);
    steps := [a] + rest;
  }

  lemma {:induction false} RunJoins(s: State, xs: seq<Step>, ys: seq<Step>)
    requires Run(s, xs).Some?
    ensures Run(s, xs + ys) == Run(Run(s, xs).value, ys)
    decreases |xs|
  {
    hide Next;
    if xs == [] {
      assert xs + ys == ys;
    } else {
      assert (xs + ys)[1..] == xs[1..] + ys;
      RunJoins(Next(s, xs[0]).value, xs[1..], ys);
    }
  }

  /** Once another thread has closed, the close is over and nobody else has moved. */
  lemma AfterCloser(s: State, closer: nat, thread: nat, where: Thread) returns (steps: seq<Step>)
    requires Inv(s) && Closes(s, closer) && thread != closer && At(s, thread, where)
    ensures Run(s, steps).Some?
    ensures var t := Run(s, steps).value; Inv(t) && !t.closing && !t.operationActive && At(t, thread, where)
  {
    if At(s, closer, InClose) {
      var t := Next(s, InnerCloseReturns(closer)).value;
      NextKeeps(s, InnerCloseReturns(closer));
      NextKeeps(t, FinishClose(closer));
      Then(t, FinishClose(closer), []);
      Then(s, InnerCloseReturns(closer), [FinishClose(closer)] + []);
      steps := [InnerCloseReturns(closer)] + ([FinishClose(closer)] + []);
    } else {
      NextKeeps(s, FinishClose(closer));
      Then(s, FinishClose(closer), []);
      steps := [FinishClose(closer)] + [];
    }
  }

  lemma WaitingEnds(s: State, thread: nat) returns (steps: seq<Step>)
    requires Inv(s) && !s.operationActive
    requires At(s, thread, EnteringClose) || Waits(s, thread)
    ensures Ends(s, steps, thread)
  {
    if s.closing {
      var closer :| Closes(s, closer);
      var first := AfterCloser(s, closer, thread, s.threads[thread]);
      var rest := IdleEnds(Run(s, first).value, thread);
      RunJoins(s, first, rest);
      steps := first + rest;
    } else {
      steps := IdleEnds(s, thread);
    }
  }

  /** Wherever a thread is inside close, or a failed next on its way there, it can go on to come back. */
  lemma CloseEnds(before: seq<Step>, thread: nat) returns (steps: seq<Step>)
    requires Run(INITIAL, before).Some?
    requires Ending(Run(INITIAL, before).value, thread)
    ensures Ends(Run(INITIAL, before).value, steps, thread)
  {
    var s := Run(INITIAL, before).value;
    RunKeeps(INITIAL, before);
    if Closes(s, thread) {
      steps := CloserEnds(s, thread);
    } else if At(s, thread, Returned) {
      steps := [];
    } else if s.operationActive || At(s, thread, Failing) {
      assert Advancing(s, thread) <== At(s, thread, Failing);
      var u :| Advancing(s, u);
      var a := if At(s, u, Failing) then FinishFailed(u) else NextReturns(u, false);
      NextKeeps(s, a);
      var rest := WaitingEnds(Next(s, a).value, thread);
      Then(s, a, rest);
      steps := [a] + rest;
    } else {
      steps := WaitingEnds(s, thread);
    }
  }

  /** On an open and idle stream a next advances the inner iterator, and leaves the stream open and idle. */
  lemma NextAdvances(s: State, thread: nat)
    requires Free(s, thread) && !s.closeRequested && !s.operationActive
    ensures
      var during := Run(s, [CallNext(thread)]);
      && during.Some? && Advancing(during.value, thread) && during.value.operationActive
      && Run(during.value, [NextReturns(thread, false)]) == Some(s.(threads := s.threads[thread := Returned]))
  {
    Then(s, CallNext(thread), []);
    assert [CallNext(thread)] + [] == [CallNext(thread)];
    var t := Next(s, CallNext(thread)).value;
    Then(t, NextReturns(thread, false), []);
    assert [NextReturns(thread, false)] + [] == [NextReturns(thread, false)];
    assert t.threads[thread := Returned] == s.threads[thread := Returned];
  }

  /** Once the close is requested a next ends at once, and while another operation is under way it is refused. */
  lemma NextRefused(s: State, thread: nat)
    requires Free(s, thread) && (s.closeRequested || s.operationActive)
    ensures Next(s, CallNext(thread)) == Some(s)
  {
  }
}

/** The asynchronous stream iterator: every aclose shares one close task, which waits for the operation. */
module AsyncStream {
  import opened Common

  datatype Operation = NoOperation | Active | Failing

  datatype CloseTask = NoTask | WaitingForOperation | InClose | Released | Done

  /** `closers` are the calls of aclose that wait for the task, `returned` those that came back. */
  datatype State = State(
    operation: Operation,
    closeRequested: bool,
    task: CloseTask,
    innerCloses: nat,
    releases: nat,
    closers: nat,
    returned: nat)

  datatype Step =
    | CallNext
    | NextReturns(failed: bool)
    | FinishFailed
    | CallClose
    | TaskProceeds
    | InnerCloseReturns
    | FinishClose
    | CloseReturns

  const INITIAL := State(NoOperation, false, NoTask, 0, 0, 0, 0)

  /** The region of aclose: request, and start the task if there is none. */
  function RequestClose(s: State): State {
    s.(closeRequested := true, closers := s.closers + 1, task := if s.task.NoTask? then WaitingForOperation else s.task)
  }

  function Next(s: State, a: Step): Option<State> {
    match a
    case CallNext =>
      if s.closeRequested || !s.operation.NoOperation? then Some(s) else Some(s.(operation := Active))
    case NextReturns(failed) =>
      if s.operation.Active? then Some(s.(operation := if failed then Failing else NoOperation)) else None
    case FinishFailed => if s.operation.Failing? then Some(RequestClose(s.(operation := NoOperation))) else None
    case CallClose => Some(RequestClose(s))
    case TaskProceeds =>
      if s.task.WaitingForOperation? && s.operation.NoOperation?
      then Some(s.(task := InClose, innerCloses := s.innerCloses + 1))
      else None
    case InnerCloseReturns =>
      if s.task.InClose? then Some(s.(task := Released, releases := s.releases + 1)) else None
    case FinishClose => if s.task.Released? then Some(s.(task := Done)) else None
    case CloseReturns =>
      if s.task.Done? && s.closers > 0 then Some(s.(closers := s.closers - 1, returned := s.returned + 1)) else None
  }

  function Run(s: State, steps: seq<Step>): Option<State>
    decreases |steps|
  {
    if steps == [] then Some(s)
    else match Next(s, steps[0])
      case None => None
      case Some(t) => Run(t, steps[1..])
  }

  ghost predicate Inv(s: State) {
    && (s.task.NoTask? <==> !s.closeRequested)
    && (s.task.InClose? || s.task.Released? || s.task.Done? ==> s.operation.NoOperation?)
    && s.innerCloses == (if s.task.NoTask? || s.task.WaitingForOperation? then 0 else 1)
    && s.releases == (if s.task.Released? || s.task.Done? then 1 else 0)
    && (s.returned > 0 ==> s.task.Done?)
    && (s.closers > 0 || s.returned > 0 ==> s.closeRequested)
  }

  lemma {:induction false} RunKeeps(s: State, steps: seq<Step>)
    requires Inv(s) && Run(s, steps).Some?
    ensures Inv(Run(s, steps).value)
    decreases |steps|
  {
    if steps != [] {
      RunKeeps(Next(s, steps[0]).value, steps[1..]);
    }
  }

  /**
   The call captured for the stream is released at most once, after the inner iterator was closed with no
   operation under way, and exactly once when any aclose has returned.
   */
  lemma ReleasedOnce(steps: seq<Step>)
    requires Run(INITIAL, steps).Some?
    ensures
      var s := Run(INITIAL, steps).value;
      && s.releases <= s.innerCloses <= 1
      && (s.returned > 0 ==> s.releases == 1)
      && (s.task.InClose? ==> s.operation.NoOperation?)
  {
    RunKeeps(INITIAL, steps);
  }

  /** A next that failed has asked for the close before it comes back. */
  lemma FailedNextCloses(s: State)
    requires s.operation.Active?
    ensures
      var t := Run(s, [NextReturns(true), FinishFailed]);
      && t.Some? && t.value.closeRequested && !t.value.task.NoTask?
      && t.value.operation.NoOperation? && t.value.closers == s.closers + 1
  {
    assert [NextReturns(true), FinishFailed] == [NextReturns(true)] + ([FinishFailed] + []);
    Then(s, NextReturns(true), [FinishFailed] + []);
    Then(Next(s, NextReturns(true)).value, FinishFailed, []);
  }

  lemma Then(s: State, a: Step, rest: seq<Step>)
    requires Next(s, a).Some?
    ensures Run(s, [a] + rest) == Run(Next(s, a).value, rest)
  {
    hide Next;
    assert ([a] + rest)[1..] == rest;
  }

  function Remaining(s: State): nat {
    (if s.operation.Active? then 5 else if s.operation.Failing? then 4 else 0)
    + (match s.task case NoTask => 4 case WaitingForOperation => 3 case InClose => 2 case Released => 1 case Done => 0)
  }

  /** Whoever waits for the close can come back: the operation ends, then the task closes and releases. */
  lemma {:induction false} CloserReturns(s: State) returns (steps: seq<Step>)
    requires Inv(s) && s.closers > 0
    ensures Run(s, steps).Some? && Run(s, steps).value.returned > s.returned && Run(s, steps).value.releases == 1
    decreases Remaining(s)
  {
    if s.task.Done? {
      var t := Next(s, CloseReturns).value;
      assert Run(t, []) == Some(t);
      Then(s, CloseReturns, []);
      steps := [CloseReturns] + [];
    } else {
      var a :=
        if s.operation.Active? then NextReturns(false)
        else if s.operation.Failing? then FinishFailed
        else if s.task.WaitingForOperation? then TaskProceeds
        else if s.task.InClose? then InnerCloseReturns
        else FinishClose;
      RunKeeps(s, [a]);
      var rest := CloserReturns(Next(s, a).value);
      Then(s, a, rest);
      steps := [a] + rest;
    }
  }

  /** On an open and idle stream a next advances the inner iterator, and leaves the stream open and idle. */
  lemma NextAdvances(s: State)
    requires s.operation.NoOperation? && !s.closeRequested
    ensures Run(s, [CallNext]).Some? && Run(s, [CallNext]).value.operation.Active?
    ensures Run(Run(s, [CallNext]).value, [NextReturns(false)]) == Some(s)
  {
    Then(s, CallNext, []);
    assert [CallNext] + [] == [CallNext];
    Then(Next(s, CallNext).value, NextReturns(false), []);
    assert [NextReturns(false)] + [] == [NextReturns(false)];
  }
}
