/**
 awaitCallbackOrCrash: the race between the callback status and the exit of the
 substrate process, for one step.  The waiter goroutine's WaitForStatus lives in
 StatusStore; this module holds the two capacity-1 channels, the goroutine that
 watches runtime.Wait, the selects of the method itself and its deferred calls.

 `Next` is local: it sees the waiter's state and the exit code of the process, if
 any, and updates only the backend's own state.
 */
module CallbackWait {
  import opened Options
  import opened StatusStore
  import Agent = AgentRunner

  /** What the method returns: an exit code with a nil error, the wait's error, or the crash error. */
  datatype Outcome = Exit(code: int) | WaitFailed | Crash(code: int)

  datatype Main =
    | Selecting               // select over statusCh and waitCh
    | AwaitingStatus          // exit code 0 seen: only the status counts now
    | InGrace(code: int)      // non-zero exit seen: select over statusCh and the grace timer
    | FinalCheck(code: int)   // grace elapsed: one non-blocking look at statusCh
    | Deferring(outcome: Outcome)
    | Done(outcome: Outcome)

  /**
   The goroutine parked in runtime.Wait; `observed` says whether the code is a real exit or the zero
   RunResult of a failed Wait.
   */
  datatype Watcher =
    | Watching
    | Sending(code: int, observed: bool)
    | Sent(code: int, observed: bool)

  datatype Backend = Backend(
    main: Main,
    statusSent: bool,
    statusCh: Option<WaitResult>,
    watcher: Watcher,
    waitCh: Option<int>,
    contextDone: bool)

  const START := Backend(Selecting, false, None, Watching, None, false)

  datatype Action =
    | SendStatus      // waiter goroutine: statusCh <- result
    | SeeExit         // runtime.Wait returns the exit code
    | WaitError       // runtime.Wait fails: a zero result
    | SendExit        // watcher goroutine: waitCh <- result
    | TakeStatus      // <-statusCh in any of the three selects
    | TakeExit        // <-waitCh in the first select
    | GraceElapses
    | LookOnce        // the final non-blocking select
    | RunDefers       // cancel both contexts; the revocation is the token store's part of this step
    | CancelContext   // the caller's context is cancelled

  predicate Enabled(b: Backend, w: Waiter, exit: Option<int>, a: Action) {
    match a
    case SendStatus => w.Returned? && !b.statusSent && b.statusCh.None?
    case SeeExit => b.watcher.Watching? && exit.Some?
    case WaitError => b.watcher.Watching?
    case SendExit => b.watcher.Sending? && b.waitCh.None?
    case TakeStatus => (b.main.Selecting? || b.main.AwaitingStatus? || b.main.InGrace?) && b.statusCh.Some?
    case TakeExit => b.main.Selecting? && b.waitCh.Some?
    case GraceElapses => b.main.InGrace?
    case LookOnce => b.main.FinalCheck?
    case RunDefers => b.main.Deferring?
    case CancelContext => !b.contextDone
  }

  /** finishCallbackStatus */
  function Finish(r: WaitResult): Outcome {
    if r.Reported? then Exit(r.status.exitCode) else WaitFailed
  }

  function Next(b: Backend, w: Waiter, exit: Option<int>, a: Action): Backend {
    if !Enabled(b, w, exit, a) then b else
    match a
    case SendStatus => b.(statusCh := Some(w.result), statusSent := true)
    case SeeExit => b.(watcher := Sending(exit.value, true))
    case WaitError => b.(watcher := Sending(0, false))
    case SendExit => b.(waitCh := Some(b.watcher.code), watcher := Sent(b.watcher.code, b.watcher.observed))
    case TakeStatus => b.(statusCh := None, main := Deferring(Finish(b.statusCh.value)))
    case TakeExit => b.(waitCh := None, main := if b.waitCh.value == 0 then AwaitingStatus else InGrace(b.waitCh.value))
    case GraceElapses => b.(main := FinalCheck(b.main.code))
    case LookOnce =>
      if b.statusCh.Some? then b.(statusCh := None, main := Deferring(Finish(b.statusCh.value)))
      else b.(main := Deferring(Crash(b.main.code)))
    case RunDefers => b.(main := Done(b.main.outcome))
    case CancelContext => b.(contextDone := true)
  }

  predicate Decided(b: Backend) {
    b.main.Deferring? || b.main.Done?
  }

  /** The context WaitForStatus runs under is the caller's, cancelled also by the method's own defer. */
  predicate StatusContextDone(b: Backend) {
    b.contextDone || b.main.Done?
  }

  ghost predicate OutcomeOk(o: Outcome, b: Backend, w: Waiter) {
    match o
    case Exit(code) => b.statusSent && w.Returned? && w.result.Reported? && w.result.status.exitCode == code
    case WaitFailed => b.statusSent && w.Returned? && !w.result.Reported?
    case Crash(code) => code != 0 && b.watcher == Sent(code, true)
  }

  ghost predicate Inv(b: Backend, w: Waiter, exit: Option<int>) {
    // The two channels
    && (!b.statusSent ==> b.statusCh.None?)
    && (!b.watcher.Sent? ==> b.waitCh.None?)
    && (b.statusSent ==> w.Returned?)
    && (b.statusCh.Some? ==> b.statusCh.value == w.result)
    && (b.statusSent && !Decided(b) ==> b.statusCh.Some?)
    && (b.waitCh.Some? ==> b.waitCh.value == b.watcher.code)
    && (b.main.Selecting? && b.watcher.Sent? ==> b.waitCh.Some?)
    // The watcher only repeats what the process did
    && (!b.watcher.Watching? ==> if b.watcher.observed then exit == Some(b.watcher.code) else b.watcher.code == 0)
    // The method itself
    && (b.main.AwaitingStatus? ==> b.watcher.Sent? && b.watcher.code == 0)
    && (b.main.InGrace? || b.main.FinalCheck? ==> b.main.code != 0 && b.watcher == Sent(b.main.code, true))
    && (Decided(b) ==> OutcomeOk(b.main.outcome, b, w))
  }

  lemma NextKeepsInv(b: Backend, w: Waiter, exit: Option<int>, a: Action)
    requires Inv(b, w, exit)
    ensures Inv(Next(b, w, exit, a), w, exit)
  {
  }

  /** The rest of the system may move the waiter, short of undoing its return, and end the process. */
  lemma OthersKeepInv(b: Backend, w: Waiter, exit: Option<int>, w': Waiter, exit': Option<int>)
    requires Inv(b, w, exit)
    requires w.Returned? ==> w' == w
    requires exit.Some? ==> exit' == exit
    ensures Inv(b, w', exit')
  {
  }

  /** Neither goroutine ever blocks on its send: when it comes to send, its channel is empty. */
  lemma SendsNeverBlock(b: Backend, w: Waiter, exit: Option<int>)
    requires Inv(b, w, exit)
    ensures w.Returned? && !b.statusSent ==> Enabled(b, w, exit, SendStatus)
    ensures b.watcher.Sending? ==> Enabled(b, w, exit, SendExit)
  {
  }

  /**
   The crash verdict in full: it is reached only by the final look, only with nothing
   in statusCh at that moment, and only for a non-zero code the process really exited with.
   */
  lemma CrashIsGenuine(b: Backend, w: Waiter, exit: Option<int>, a: Action)
    requires Inv(b, w, exit) && !Decided(b)
    ensures
      var t := Next(b, w, exit, a);
      Decided(t) && t.main.outcome.Crash? ==>
        && a == LookOnce && b.statusCh.None? && !b.statusSent
        && t.main.outcome.code != 0 && exit == Some(t.main.outcome.code)
  {
  }

  // ----- Bounded termination -----

  function WaiterSteps(w: Waiter, sent: bool): nat {
    match w
    case Idle => 4
    case Waiting(_) => 3
    case Leaving(_) => 2
    case Returned(_) => if sent then 0 else 1
  }

  function MainSteps(m: Main): nat {
    match m
    case Selecting => 5
    case AwaitingStatus => 4
    case InGrace(_) => 4
    case FinalCheck(_) => 3
    case Deferring(_) => 1
    case Done(_) => 0
  }

  /** What the method and its two goroutines do themselves; the rest is done to them. */
  predicate Own(a: Action) {
    !a.SeeExit? && !a.WaitError? && !a.CancelContext?
  }

  /** An upper bound on the steps the method and its two goroutines can still take. */
  function Measure(b: Backend, w: Waiter): (n: nat)
    ensures n <= 11 && (!b.main.Done? ==> n > 0)
  {
    WaiterSteps(w, b.statusSent) + MainSteps(b.main)
    + (match b.watcher case Watching => 2 case Sending(_, _) => 1 case Sent(_, _) => 0)
  }

  lemma EveryStepCounts(b: Backend, w: Waiter, exit: Option<int>, a: Action)
    requires Inv(b, w, exit) && Enabled(b, w, exit, a)
    ensures Measure(Next(b, w, exit, a), w) + (if Own(a) then 1 else 0) <= Measure(b, w)
  {
  }

  /** The moves of the waiter goroutine inside WaitForStatus count as well. */
  lemma WaiterStepsCount(b: Backend, w: Waiter, exit: Option<int>, w': Waiter)
    requires Inv(b, w, exit)
    requires
      || (w.Idle? && w'.Waiting?)
      || (w.Waiting? && w'.Leaving?)
      || (w.Leaving? && w'.Returned?)
    ensures Measure(b, w') < Measure(b, w)
  {
  }

  /** Nothing that is done to the method takes a move of its own away. */
  lemma OthersDoNotDisable(b: Backend, w: Waiter, exit: Option<int>, a: Action, other: Action)
    requires Own(a) && !Own(other) && Enabled(b, w, exit, a)
    ensures Enabled(Next(b, w, exit, other), w, exit, a)
  {
  }

  /** Until it returns, the method has a step to take unless the waiter goroutine is still inside WaitForStatus. */
  lemma NeverStuck(b: Backend, w: Waiter, exit: Option<int>)
    requires Inv(b, w, exit) && !b.main.Done? && w.Returned?
    ensures
      || Enabled(b, w, exit, SendStatus)
      || Enabled(b, w, exit, TakeStatus)
      || Enabled(b, w, exit, LookOnce)
      || Enabled(b, w, exit, RunDefers)
  {
  }

  // ----- A crash is declared -----

  /** runtime.Wait has given the watcher a non-zero code. */
  predicate ExitSeen(b: Backend) {
    !b.watcher.Watching? && b.watcher.code != 0
  }

  /** From then on the method has a step of its own to take until it returns, whatever the waiter is doing. */
  lemma NotStuckOnceExitSeen(b: Backend, w: Waiter, exit: Option<int>)
    requires Inv(b, w, exit) && ExitSeen(b) && !b.main.Done?
    ensures
      || Enabled(b, w, exit, SendExit)
      || Enabled(b, w, exit, TakeExit)
      || Enabled(b, w, exit, GraceElapses)
      || Enabled(b, w, exit, LookOnce)
      || Enabled(b, w, exit, RunDefers)
  {
  }

  lemma ExitSeenStays(b: Backend, w: Waiter, exit: Option<int>, a: Action)
    requires ExitSeen(b)
    ensures ExitSeen(Next(b, w, exit, a)) && Next(b, w, exit, a).watcher.code == b.watcher.code
  {
  }

  /** The process has exited with `code`, and neither a status nor a failed Wait has got in the way. */
  predicate CrashIsDue(b: Backend, exit: Option<int>, code: int) {
    exit == Some(code) && code != 0 && !b.statusSent && (b.watcher.Watching? || ExitSeen(b))
  }

  /** The path from there to the verdict. */
  function CrashMove(b: Backend): Action {
    match b.watcher
    case Watching => SeeExit
    case Sending(_, _) => SendExit
    case Sent(_, _) =>
      match b.main
      case InGrace(_) => GraceElapses
      case FinalCheck(_) => LookOnce
      case Deferring(_) => RunDefers
      case _ => TakeExit
  }

  function StepsToCrash(b: Backend): (n: nat)
    ensures n <= 6
  {
    if b.main.Done? then 0
    else
      match b.watcher
      case Watching => 6
      case Sending(_, _) => 5
      case Sent(_, _) =>
        match b.main
        case InGrace(_) => 3
        case FinalCheck(_) => 2
        case Deferring(_) => 1
        case _ => 4
  }

  lemma CrashComesCloser(b: Backend, w: Waiter, exit: Option<int>, code: int)
    requires Inv(b, w, exit) && CrashIsDue(b, exit, code)
    ensures b.main.Done? ==> b.main.outcome == Crash(code)
    ensures !b.main.Done? ==>
      var t := Next(b, w, exit, CrashMove(b));
      && Enabled(b, w, exit, CrashMove(b)) && CrashIsDue(t, exit, code) && StepsToCrash(t) + 1 == StepsToCrash(b)
  {
  }
}
