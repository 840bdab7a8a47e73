/**
 The agent side of the callback protocol: the runner's pipeline (clone, write
 context, start the provider, drain its events, commit and push, report) and the
 HTTP client that posts one status with up to three attempts.

 `Next` takes the runner through one action at a time.  Every early return of the
 original goes through exactly one SendStatus; a kill may strike anywhere.
 */
module AgentRunner {
  import opened StatusStore

  const MAX_ATTEMPTS := 3

  datatype Pc =
    | Cloning
    | WritingContext
    | StartingProvider
    | Streaming
    | Pushing
    | Posting(status: Status, final: bool, attempt: nat)        // about to issue a POST
    | AwaitingReply(status: Status, final: bool, attempt: nat)  // the POST is on the wire
    | Exited(code: int)

  /**
   `results` are the exit codes of the provider's result events, in order; `reports`
   the statuses passed to SendStatus; `posts` the number of POSTs issued for them.
   */
  datatype Runner = Runner(
    pc: Pc,
    results: seq<int>,
    pushed: bool,
    reports: seq<Status>,
    posts: nat,
    killed: bool)

  const START := Runner(Cloning, [], false, [], 0, false)

  /** What the client makes of an HTTP exchange. */
  datatype Reply =
    | Accepted      // 2xx
    | Rejected      // 4xx other than 429: not retried
    | Unanswered    // transport error, 5xx or 429: retried
    | ContextDone   // cancelled, before or during the backoff

  datatype Action =
    | Cloned(ok: bool, why: string)
    | ContextWritten(ok: bool, why: string)
    | ProviderStarted(ok: bool, why: string)
    | ProviderResult(code: int)
    | ProviderClosed(message: string)
    | Pushed(ok: bool, why: string)
    | Post
    | Answer(reply: Reply)
    | Kill(code: int)

  /** The exit code of the runner's `lastResult`, a zero value until a result event arrives. */
  function LastCode(results: seq<int>): int {
    if results == [] then 0 else results[|results| - 1]
  }

  predicate Enabled(r: Runner, a: Action) {
    match a
    case Cloned(_, _) => r.pc.Cloning?
    case ContextWritten(_, _) => r.pc.WritingContext?
    case ProviderStarted(_, _) => r.pc.StartingProvider?
    case ProviderResult(_) => r.pc.Streaming?
    case ProviderClosed(_) => r.pc.Streaming? && r.results != []   // a provider sends its result, then closes
    case Pushed(_, _) => r.pc.Pushing?
    case Post => r.pc.Posting?
    case Answer(_) => r.pc.AwaitingReply?
    case Kill(_) => !r.pc.Exited?
  }

  /** SendStatus; `final` distinguishes the report that ends a normal run from the failure reports. */
  function Report(r: Runner, status: Status, final: bool): Runner {
    r.(pc := Posting(status, final, 0), reports := r.reports + [status])
  }

  function Advance(r: Runner, ok: bool, why: string, next: Pc): Runner {
    if ok then r.(pc := next) else Report(r, Status(1, why), false)
  }

  function Next(r: Runner, a: Action): Runner {
    if !Enabled(r, a) then r else
    match a
    case Cloned(ok, why) => Advance(r, ok, why, WritingContext)
    case ContextWritten(ok, why) => Advance(r, ok, why, StartingProvider)
    case ProviderStarted(ok, why) => Advance(r, ok, why, Streaming)
    case ProviderResult(code) => r.(results := r.results + [code])
    case ProviderClosed(message) =>
      if LastCode(r.results) == 0 then r.(pc := Pushing)
      else Report(r, Status(LastCode(r.results), message), true)
    case Pushed(ok, why) =>
      if ok then Report(r.(pushed := true), Status(0, ""), true)
      else Report(r, Status(1, why), false)
    case Post => r.(pc := AwaitingReply(r.pc.status, r.pc.final, r.pc.attempt), posts := r.posts + 1)
    case Answer(reply) =>
      match reply {
        case Accepted => r.(pc := Exited(if r.pc.final then 0 else 1))
        case Rejected => r.(pc := Exited(1))
        case ContextDone => r.(pc := Exited(1))
        case Unanswered =>
          if r.pc.attempt + 1 < MAX_ATTEMPTS
          then r.(pc := Posting(r.pc.status, r.pc.final, r.pc.attempt + 1))
          else r.(pc := Exited(1))
      }
    case Kill(code) => r.(pc := Exited(code), killed := true)
  }

  function Run(r: Runner, actions: seq<Action>): Runner
    decreases |actions|
  {
    if actions == [] then r else Run(Next(r, actions[0]), actions[1..])
  }

  ghost predicate Inv(r: Runner) {
    && (r.pc.Posting? ==> r.reports == [r.pc.status] && r.posts == r.pc.attempt < MAX_ATTEMPTS)
    && (r.pc.AwaitingReply? ==> r.reports == [r.pc.status] && r.posts == r.pc.attempt + 1 <= MAX_ATTEMPTS)
    && (!r.pc.Posting? && !r.pc.AwaitingReply? && !r.pc.Exited? ==> r.reports == [] && r.posts == 0 && !r.pushed)
    && (r.pc.Pushing? ==> r.results != [] && LastCode(r.results) == 0)
    && |r.reports| <= 1 && r.posts <= MAX_ATTEMPTS
    && (r.pushed ==> r.results != [] && LastCode(r.results) == 0 && r.reports == [Status(0, "")])
    && (r.reports != [] && !r.pushed ==> r.reports[0].exitCode != 0)
    && (r.pc.Exited? && !r.killed ==> r.reports != [] && r.posts > 0)
    && (!r.pc.Exited? ==> !r.killed)
    && (r.pc.Cloning? || r.pc.WritingContext? || r.pc.StartingProvider? ==> r.results == [])
    && (r.reports != [] && r.results != [] && LastCode(r.results) != 0 ==> r.reports[0].exitCode == LastCode(r.results))
    && (r.reports != [] && (r.results == [] || LastCode(r.results) == 0) ==> r.pushed || r.reports[0].exitCode == 1)
  }

  lemma NextKeepsInv(r: Runner, a: Action)
    requires Inv(r)
    ensures Inv(Next(r, a))
  {
  }

  lemma {:induction false} RunKeepsInv(r: Runner, actions: seq<Action>)
    requires Inv(r)
    ensures Inv(Run(r, actions))
    decreases |actions|
  {
    if actions != [] {
      NextKeepsInv(r, actions[0]);
      RunKeepsInv(Next(r, actions[0]), actions[1..]);
    }
  }

  /** The provider's last result, if that is a failure; else 0 for changes that were pushed and 1 for any error. */
  function CodeToReport(r: Runner): int {
    if r.results != [] && r.results[|r.results| - 1] != 0 then r.results[|r.results| - 1]
    else if r.pushed then 0
    else 1
  }

  /**
   On every path the runner calls SendStatus exactly once unless it is killed, and posts
   it at most three times.  It reports the provider's own last code when that is a failure,
   else 0 when the changes were pushed and 1 when something went wrong, and it pushes only
   after a last result of 0.
   */
  lemma ReportsOnceAndTruthfully(actions: seq<Action>)
    ensures
      var r := Run(START, actions);
      && |r.reports| <= 1 && r.posts <= 3
      && (r.pc.Exited? && !r.killed ==> |r.reports| == 1)
      && (|r.reports| == 1 ==> r.reports[0].exitCode == CodeToReport(r))
      && (r.pushed ==> r.results != [] && r.results[|r.results| - 1] == 0)
  {
    RunKeepsInv(START, actions);
  }

  /** A report, once made, is never revised, and an exit is final. */
  lemma ReportIsFinal(r: Runner, a: Action)
    requires Inv(r)
    ensures r.reports != [] ==> Next(r, a).reports == r.reports
    ensures r.pc.Exited? ==> Next(r, a) == r
  {
  }
}
