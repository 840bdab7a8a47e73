/**
 Any number of agent runs in callback mode, end to end: each step's token and runner, a
 network that loses, delays, reorders and duplicates its POSTs, the authenticated status
 handler, the shared token and status stores, and each step's awaitCallbackOrCrash.

 `posts` is the set of POSTs ever issued.  Delivering one does not remove it, and
 nothing forces a delivery, so the set covers loss and duplication alike.
 */
module CallbackSystem {
  import opened Options
  import opened StatusStore
  import Agent = AgentRunner
  import Tokens = TokenStore
  import Wait = CallbackWait

  datatype Post = Post(step: StepId, status: Status)

  const STATUS_TIMEOUT := 7200

  /** `deadline` is when the timer of the step's WaitForStatus fires, once that has begun. */
  datatype Process = Process(runner: Agent.Runner, backend: Wait.Backend, token: Tokens.Token, deadline: Option<int>)

  datatype System = System(store: State, tokens: Tokens.State, processes: map<StepId, Process>, posts: set<Post>)

  datatype Event =
    | Launch(step: StepId, minted: Tokens.ContainerToken, ttl: int)   // a token is minted and the agent started with it
    | AgentMoves(step: StepId, agent: Agent.Action)
    | BackendMoves(step: StepId, backend: Wait.Action)
    | WaiterMoves(step: StepId, waiter: Action)
    | Deliver(post: Post)             // a POST reaches the authentication and, if admitted, the handler
    | HandlerMoves(handler: Action)   // a SetStatus call takes its next atomic region
    | TokenMoves(moved: Tokens.Action)   // time, sweeps, other requests, tokens of other runs

  const START := System(INIT, Tokens.INIT, map[], {})

  function ExitOf(r: Agent.Runner): Option<int> {
    if r.pc.Exited? then Some(r.pc.code) else None
  }

  /** A waiter goroutine only performs its own WaitForStatus, and each select arm only when it is ready. */
  predicate WaiterAllowed(p: Process, step: StepId, now: int, a: Action) {
    match a
    case BeginWait(x) => x == step
    case Receive(x) => x == step
    case Cancel(x) => x == step && Wait.StatusContextDone(p.backend)
    case Expire(x) => x == step && p.deadline.Some? && now >= p.deadline.value
    case Depart(x) => x == step
    case _ => false
  }

  predicate Enabled(s: System, e: Event) {
    match e
    case Launch(step, minted, ttl) => step !in s.processes && Tokens.Enabled(s.tokens, Tokens.Create(minted, ttl))
    case AgentMoves(step, a) => step in s.processes && Agent.Enabled(s.processes[step].runner, a)
    case BackendMoves(step, a) =>
      step in s.processes &&
      Wait.Enabled(s.processes[step].backend, WaiterOf(s.store, step), ExitOf(s.processes[step].runner), a)
    case WaiterMoves(step, a) =>
      && step in s.processes && WaiterAllowed(s.processes[step], step, s.tokens.clock, a)
      && StatusStore.Enabled(s.store, a)
    case Deliver(post) => post in s.posts && post.step in s.processes
    case HandlerMoves(a) => (a.Locate? || a.Send?) && StatusStore.Enabled(s.store, a)
    case TokenMoves(a) => !a.Revoke? && Tokens.Enabled(s.tokens, a)
  }

  /** The answer the token store would give for the step's token now. */
  predicate Admitted(s: System, step: StepId)
    requires step in s.processes
  {
    Tokens.Validated(s.tokens.tokens, s.processes[step].token, s.tokens.clock).1.Some?
  }

  function Next(s: System, e: Event): System {
    if !Enabled(s, e) then s else
    match e
    case Launch(step, minted, ttl) =>
      s.(tokens := Tokens.Next(s.tokens, Tokens.Create(minted, ttl)),
         processes := s.processes[step := Process(Agent.START, Wait.START, minted.token, None)])
    case AgentMoves(step, a) =>
      var p := s.processes[step];
      s.(processes := s.processes[step := p.(runner := Agent.Next(p.runner, a))],
         posts := if a.Post? then s.posts + {Post(step, p.runner.pc.status)} else s.posts)
    case BackendMoves(step, a) =>
      var p := s.processes[step];
      s.(processes := s.processes[step :=
           p.(backend := Wait.Next(p.backend, WaiterOf(s.store, step), ExitOf(p.runner), a))],
         tokens := if a.RunDefers? then Tokens.Next(s.tokens, Tokens.Revoke(p.token)) else s.tokens)
    case WaiterMoves(step, a) =>
      var p := s.processes[step];
      s.(store := StatusStore.Next(s.store, a),
         processes := if a.BeginWait?
           then s.processes[step := p.(deadline := Some(s.tokens.clock + STATUS_TIMEOUT))] else s.processes)
    case Deliver(post) =>
      s.(tokens := Tokens.Next(s.tokens, Tokens.Validate(s.processes[post.step].token)),
         store := if Admitted(s, post.step) then StatusStore.Next(s.store, SetStatus(post.step, post.status))
           else s.store)
    case HandlerMoves(a) => s.(store := StatusStore.Next(s.store, a))
    case TokenMoves(a) => s.(tokens := Tokens.Next(s.tokens, a))
  }

  function Run(s: System, events: seq<Event>): System
    decreases |events|
  {
    if events == [] then s else Run(Next(s, events[0]), events[1..])
  }

  // ----- Invariant -----

  /** Everything the network and the store hold for a step is the runner's one report. */
  ghost predicate Genuine(s: System, step: StepId, status: Status) {
    step in s.processes && s.processes[step].runner.reports == [status]
  }

  ghost predicate PayloadsOk(s: System) {
    && (forall post :: post in s.posts ==> Genuine(s, post.step, post.status))
    && (forall step, status :: status in History(s.store.called, step) ==> Genuine(s, step, status))
  }

  ghost predicate ProcessOk(s: System, step: StepId)
    requires step in s.processes
  {
    var p := s.processes[step];
    && Agent.Inv(p.runner) && Wait.Inv(p.backend, WaiterOf(s.store, step), ExitOf(p.runner))
    && (WaiterOf(s.store, step).Idle? <==> p.deadline.None?)
  }

  /** A step's token is its own, and alive in the abstract map exactly until its wait returns. */
  ghost predicate TokenOk(t: Tokens.State, processes: map<StepId, Process>, step: StepId)
    requires step in processes
  {
    var token := processes[step].token;
    && token in t.issued
    && (token in t.live <==> !processes[step].backend.main.Done?)
    && forall other :: other in processes && other != step ==> processes[other].token != token
  }

  ghost predicate TokensOk(t: Tokens.State, processes: map<StepId, Process>) {
    Tokens.Inv(t) && forall step :: step in processes ==> TokenOk(t, processes, step)
  }

  /** Nobody waits for a step before it is launched. */
  ghost predicate WaitersOk(s: System) {
    forall step :: step !in s.processes ==> WaiterOf(s.store, step).Idle?
  }

  ghost predicate Inv(s: System) {
    && StatusStore.Inv(s.store) && PayloadsOk(s) && WaitersOk(s) && TokensOk(s.tokens, s.processes)
    && forall step :: step in s.processes ==> ProcessOk(s, step)
  }

  /** What the processes have reported stays reported, so old payloads stay genuine. */
  lemma PayloadsKept(s: System, t: System)
    requires PayloadsOk(s) && t.store.called == s.store.called
    requires forall post :: post in t.posts ==> post in s.posts || Genuine(t, post.step, post.status)
    requires forall x :: x in s.processes && s.processes[x].runner.reports != [] ==>
      x in t.processes && t.processes[x].runner.reports == s.processes[x].runner.reports
    ensures PayloadsOk(t)
  {
    forall x, status | Genuine(s, x, status) ensures Genuine(t, x, status) {
    }
    forall x, status | status in History(t.store.called, x) ensures Genuine(t, x, status) {
      assert Genuine(s, x, status);
    }
  }

  lemma StartInv()
    ensures Inv(START)
  {
  }

  /** What any store action does to the waiter of a step, and to the record of calls. */
  lemma StoreEffect(s: State, a: Action, step: StepId)
    ensures
      var w, w' := WaiterOf(s, step), WaiterOf(StatusStore.Next(s, a), step);
      || w' == w
      || (!a.Locate? && !a.Send? && a.step == step
          && ((w.Idle? && w'.Waiting?) || (w.Waiting? && w'.Leaving?) || (w.Leaving? && w'.Returned?)))
    ensures !a.SetStatus? ==> StatusStore.Next(s, a).called == s.called
    ensures a.SetStatus? ==>
      StatusStore.Next(s, a).called == s.called[a.step := History(s.called, a.step) + [a.status]]
      && StatusStore.Next(s, a).waiters == s.waiters
  {
  }

  lemma StoreMoveKeepsInv(s: System, a: Action)
    requires Inv(s) && (a.SetStatus? ==> Genuine(s, a.step, a.status))
    requires a.Locate? || a.Send? || a.step in s.processes
    requires !a.BeginWait?
    ensures Inv(s.(store := StatusStore.Next(s.store, a)))
  {
    hide TokensOk;
    var t := s.(store := StatusStore.Next(s.store, a));
    StatusStore.NextKeepsInv(s.store, a);
    forall step, status | status in History(t.store.called, step) ensures Genuine(t, step, status) {
      StoreEffect(s.store, a, step);
      assert status in History(s.store.called, step) ==> Genuine(s, step, status);
    }
    assert forall post :: post in s.posts ==> Genuine(s, post.step, post.status) ==> Genuine(t, post.step, post.status);
    forall step | step in t.processes ensures ProcessOk(t, step) {
      assert ProcessOk(s, step);
      StoreEffect(s.store, a, step);
      var p := s.processes[step];
      Wait.OthersKeepInv(p.backend, WaiterOf(s.store, step), ExitOf(p.runner), WaiterOf(t.store, step),
        ExitOf(p.runner));
    }
    forall step | step !in t.processes ensures WaiterOf(t.store, step).Idle? {
      StoreEffect(s.store, a, step);
    }
  }

  lemma BeginKeepsInv(s: System, step: StepId)
    requires Inv(s) && Enabled(s, WaiterMoves(step, BeginWait(step)))
    ensures Inv(Next(s, WaiterMoves(step, BeginWait(step))))
  {
    var t := Next(s, WaiterMoves(step, BeginWait(step)));
    var p, w := s.processes[step], WaiterOf(s.store, step);
    StatusStore.NextKeepsInv(s.store, BeginWait(step));
    ProcessMoveKeepsTokens(s.tokens, s.processes, step, t.processes[step]);
    PayloadsKept(s, t);
    assert ProcessOk(s, step);
    Wait.OthersKeepInv(p.backend, w, ExitOf(p.runner), WaiterOf(t.store, step), ExitOf(p.runner));
    hide TokensOk, PayloadsOk, StatusStore.Inv, Wait.Inv, Agent.Inv;
    forall x | x in t.processes ensures ProcessOk(t, x) {
      assert ProcessOk(s, x);
      StoreEffect(s.store, BeginWait(step), x);
    }
    forall x | x !in t.processes ensures WaiterOf(t.store, x).Idle? {
      StoreEffect(s.store, BeginWait(step), x);
    }
  }

  /** The token store moves without the step's wait returning. */
  lemma TokenMoveKeepsInv(t: Tokens.State, processes: map<StepId, Process>, a: Tokens.Action)
    requires TokensOk(t, processes) && !a.Revoke?
    ensures TokensOk(Tokens.Next(t, a), processes)
  {
    Tokens.NextKeepsInv(t, a);
    forall step | step in processes ensures TokenOk(Tokens.Next(t, a), processes, step) {
      assert TokenOk(t, processes, step);
    }
  }

  lemma RevokeKeepsTokens(t: Tokens.State, processes: map<StepId, Process>, step: StepId, p: Process)
    requires TokensOk(t, processes) && step in processes && p.backend.main.Done? && p.token == processes[step].token
    ensures TokensOk(Tokens.Next(t, Tokens.Revoke(p.token)), processes[step := p])
  {
    Tokens.NextKeepsInv(t, Tokens.Revoke(p.token));
    assert TokenOk(t, processes, step);
    forall x | x in processes ensures TokenOk(Tokens.Next(t, Tokens.Revoke(p.token)), processes[step := p], x) {
      assert TokenOk(t, processes, x);
    }
  }

  /** Changing anything of a process but its token and whether its wait has returned. */
  lemma ProcessMoveKeepsTokens(t: Tokens.State, processes: map<StepId, Process>, step: StepId, p: Process)
    requires TokensOk(t, processes) && step in processes && p.token == processes[step].token
    requires p.backend.main.Done? <==> processes[step].backend.main.Done?
    ensures TokensOk(t, processes[step := p])
  {
    forall x | x in processes ensures TokenOk(t, processes[step := p], x) {
      assert TokenOk(t, processes, x) && TokenOk(t, processes, step);
    }
  }

  lemma LaunchKeepsTokens(t: Tokens.State, processes: map<StepId, Process>, step: StepId,
                          minted: Tokens.ContainerToken, ttl: int)
    requires TokensOk(t, processes) && step !in processes && Tokens.Enabled(t, Tokens.Create(minted, ttl))
    ensures TokensOk(Tokens.Next(t, Tokens.Create(minted, ttl)),
                     processes[step := Process(Agent.START, Wait.START, minted.token, None)])
  {
    var t', processes' := Tokens.Next(t, Tokens.Create(minted, ttl)),
      processes[step := Process(Agent.START, Wait.START, minted.token, None)];
    Tokens.NextKeepsInv(t, Tokens.Create(minted, ttl));
    forall x | x in processes' ensures TokenOk(t', processes', x) {
      if x in processes { assert TokenOk(t, processes, x); }
      assert forall y :: y in processes ==> TokenOk(t, processes, y);
    }
  }

  lemma LaunchKeepsInv(s: System, step: StepId, minted: Tokens.ContainerToken, ttl: int)
    requires Inv(s) && Enabled(s, Launch(step, minted, ttl))
    ensures Inv(Next(s, Launch(step, minted, ttl)))
  {
    var t := Next(s, Launch(step, minted, ttl));
    LaunchKeepsTokens(s.tokens, s.processes, step, minted, ttl);
    PayloadsKept(s, t);
    assert WaiterOf(s.store, step).Idle? && ProcessOk(t, step);
    hide TokensOk, PayloadsOk, StatusStore.Inv, Tokens.Next, Tokens.Enabled, Wait.Inv, Agent.Inv;
    forall x | x in t.processes ensures ProcessOk(t, x) {
      if x != step { assert ProcessOk(s, x); }
    }
  }

  lemma RunnerMove(r: Agent.Runner, a: Agent.Action)
    requires Agent.Inv(r) && Agent.Enabled(r, a)
    ensures
      var r' := Agent.Next(r, a);
      && Agent.Inv(r')
      && (a.Post? ==> r.reports == [r.pc.status] && r'.reports == r.reports)
      && (r.reports != [] ==> r'.reports == r.reports)
      && (ExitOf(r).Some? ==> ExitOf(r') == ExitOf(r))
  {
    Agent.NextKeepsInv(r, a);
    Agent.ReportIsFinal(r, a);
  }

  lemma AgentMovePayloads(s: System, step: StepId, a: Agent.Action)
    requires PayloadsOk(s) && Enabled(s, AgentMoves(step, a)) && Agent.Inv(s.processes[step].runner)
    ensures PayloadsOk(Next(s, AgentMoves(step, a)))
  {
    RunnerMove(s.processes[step].runner, a);
    hide Agent.Inv, Agent.Next, Agent.Enabled, ExitOf;
    PayloadsKept(s, Next(s, AgentMoves(step, a)));
  }

  lemma AgentMoveKeepsInv(s: System, step: StepId, a: Agent.Action)
    requires Inv(s) && Enabled(s, AgentMoves(step, a))
    ensures Inv(Next(s, AgentMoves(step, a)))
  {
    var t := Next(s, AgentMoves(step, a));
    var r, r' := s.processes[step].runner, t.processes[step].runner;
    ProcessMoveKeepsTokens(s.tokens, s.processes, step, t.processes[step]);
    hide TokensOk, StatusStore.Inv, Agent.Inv, Agent.Next, PayloadsOk;
    assert ProcessOk(s, step);
    RunnerMove(r, a);
    AgentMovePayloads(s, step, a);
    Wait.OthersKeepInv(s.processes[step].backend, WaiterOf(s.store, step), ExitOf(r), WaiterOf(s.store, step),
      ExitOf(r'));
    hide Wait.Inv;
    forall x | x in t.processes ensures ProcessOk(t, x) {
      assert ProcessOk(s, x);
    }
  }

  lemma BackendMoveKeepsInv(s: System, step: StepId, a: Wait.Action)
    requires Inv(s) && Enabled(s, BackendMoves(step, a))
    ensures Inv(Next(s, BackendMoves(step, a)))
  {
    var t := Next(s, BackendMoves(step, a));
    var p := s.processes[step];
    assert ProcessOk(s, step);
    BackendMoveKeepsTokens(s, step, a);
    Wait.NextKeepsInv(p.backend, WaiterOf(s.store, step), ExitOf(p.runner), a);
    hide TokensOk, StatusStore.Inv, Tokens.Next, Wait.Next, Wait.Enabled, Wait.Inv, Agent.Inv;
    PayloadsKept(s, t);
    hide PayloadsOk;
    forall x | x in t.processes ensures ProcessOk(t, x) {
      assert ProcessOk(s, x);
    }
  }

  lemma BackendMoveKeepsTokens(s: System, step: StepId, a: Wait.Action)
    requires TokensOk(s.tokens, s.processes) && Enabled(s, BackendMoves(step, a))
    requires ProcessOk(s, step)
    ensures var t := Next(s, BackendMoves(step, a)); TokensOk(t.tokens, t.processes)
  {
    var t := Next(s, BackendMoves(step, a));
    hide TokensOk, Tokens.Next;
    if a.RunDefers? {
      RevokeKeepsTokens(s.tokens, s.processes, step, t.processes[step]);
    } else {
      ProcessMoveKeepsTokens(s.tokens, s.processes, step, t.processes[step]);
    }
  }

  lemma TokensAloneKeepInv(s: System, t: Tokens.State)
    requires Inv(s) && TokensOk(t, s.processes)
    ensures Inv(s.(tokens := t))
  {
    hide TokensOk;
    var s' := s.(tokens := t);
    PayloadsKept(s, s');
    hide PayloadsOk;
    forall x | x in s.processes ensures ProcessOk(s', x) {
      assert ProcessOk(s, x);
    }
  }

  lemma DeliverKeepsInv(s: System, post: Post)
    requires Inv(s) && Enabled(s, Deliver(post))
    ensures Inv(Next(s, Deliver(post)))
  {
    var checked := Tokens.Next(s.tokens, Tokens.Validate(s.processes[post.step].token));
    TokenMoveKeepsInv(s.tokens, s.processes, Tokens.Validate(s.processes[post.step].token));
    TokensAloneKeepInv(s, checked);
    if Admitted(s, post.step) {
      assert Genuine(s.(tokens := checked), post.step, post.status);
      StoreMoveKeepsInv(s.(tokens := checked), SetStatus(post.step, post.status));
    }
  }

  lemma NextKeepsInv(s: System, e: Event)
    requires Inv(s)
    ensures Inv(Next(s, e))
  {
    hide Inv;
    if Enabled(s, e) {
      match e
      case Launch(step, minted, ttl) => LaunchKeepsInv(s, step, minted, ttl);
      case AgentMoves(step, a) => AgentMoveKeepsInv(s, step, a);
      case BackendMoves(step, a) => BackendMoveKeepsInv(s, step, a);
      case WaiterMoves(step, a) => if a.BeginWait? { BeginKeepsInv(s, step); } else { StoreMoveKeepsInv(s, a); }
      case Deliver(post) => DeliverKeepsInv(s, post);
      case HandlerMoves(a) => StoreMoveKeepsInv(s, a);
      case TokenMoves(a) =>
        OtherTokensMove(s, a);
    }
  }

  lemma OtherTokensMove(s: System, a: Tokens.Action)
    requires Inv(s) && Enabled(s, TokenMoves(a))
    ensures Inv(Next(s, TokenMoves(a)))
  {
    TokenMoveKeepsInv(s.tokens, s.processes, a);
    TokensAloneKeepInv(s, Tokens.Next(s.tokens, a));
  }

  lemma {:induction false} RunKeepsInv(s: System, events: seq<Event>)
    requires Inv(s)
    ensures Inv(Run(s, events))
    decreases |events|
  {
    if events != [] {
      hide Inv, Next;
      NextKeepsInv(s, events[0]);
      RunKeepsInv(Next(s, events[0]), events[1..]);
    }
  }

  // ----- Main results -----

  /** Execute's return value: nil exactly when the wait ended with exit code 0. */
  predicate ExecuteSucceeded(b: Wait.Backend) {
    b.main == Wait.Done(Wait.Exit(0))
  }

  /**
   The outcome is authoritative: whatever the interleaving, losses and duplicates,
   a returned exit code is the one the agent reported, and it is the first status
   stored for that very step; a returned crash is a real non-zero exit; any other
   return is the wait's own timeout or cancellation.
   */
  lemma OutcomeIsAuthoritative(events: seq<Event>, step: StepId)
    requires step in Run(START, events).processes
    ensures OutcomeOk(Run(START, events), step)
  {
    StartInv();
    RunKeepsInv(START, events);
    InvOutcome(Run(START, events), step);
  }

  ghost predicate OutcomeOk(s: System, step: StepId)
    requires step in s.processes
  {
    var p := s.processes[step];
    p.backend.main.Done? ==>
      match p.backend.main.outcome {
        case Exit(code) =>
          && |p.runner.reports| == 1 && p.runner.reports[0].exitCode == code == Agent.CodeToReport(p.runner)
          && History(s.store.stored, step) != [] && History(s.store.stored, step)[0] == p.runner.reports[0]
        case WaitFailed =>
          WaiterOf(s.store, step) == Returned(Cancelled) || WaiterOf(s.store, step) == Returned(TimedOut)
        case Crash(code) => code != 0 && p.runner.pc == Agent.Exited(code)
      }
  }

  lemma InvOutcome(s: System, step: StepId)
    requires Inv(s) && step in s.processes
    ensures OutcomeOk(s, step)
  {
    assert ProcessOk(s, step) && StepOk(s.store, step);
    var p := s.processes[step];
    if p.backend.main.Done? && p.backend.main.outcome.Exit? {
      var stored := History(s.store.stored, step);
      assert stored[0] in History(s.store.called, step);
      assert Genuine(s, step, stored[0]);
    }
  }

  /**
   No false success: when Execute returns nil, the provider's last result had exit code 0
   and the agent pushed its changes; it made one report, of code 0.
   */
  lemma NoFalseSuccess(events: seq<Event>, step: StepId)
    requires step in Run(START, events).processes
    requires ExecuteSucceeded(Run(START, events).processes[step].backend)
    ensures
      var r := Run(START, events).processes[step].runner;
      && r.results != [] && r.results[|r.results| - 1] == 0 && r.pushed
      && r.reports == [Status(0, "")] && 1 <= r.posts <= 3
  {
    StartInv();
    RunKeepsInv(START, events);
    PostedBeforeCalled(START, events, step);
    hide Run;
    SuccessIsTrue(Run(START, events), step);
  }

  lemma SuccessIsTrue(s: System, step: StepId)
    requires Inv(s) && PostedIfCalled(s, step) && step in s.processes && ExecuteSucceeded(s.processes[step].backend)
    ensures
      var r := s.processes[step].runner;
      && r.results != [] && Agent.LastCode(r.results) == 0 && r.pushed && r.reports == [Status(0, "")]
        && 1 <= r.posts <= 3
  {
    InvOutcome(s, step);
    assert ProcessOk(s, step) && StepOk(s.store, step);
    assert History(s.store.stored, step)[0] in History(s.store.called, step);
  }

  ghost predicate PostedIfCalled(s: System, step: StepId) {
    && (forall post :: post in s.posts && post.step == step ==>
          step in s.processes && s.processes[step].runner.posts > 0)
    && (History(s.store.called, step) != [] ==> step in s.processes && s.processes[step].runner.posts > 0)
  }

  lemma NextPosted(s: System, e: Event, step: StepId)
    requires PostedIfCalled(s, step)
    ensures PostedIfCalled(Next(s, e), step)
  {
    hide Tokens.Next;
    match e {
      case WaiterMoves(_, a) => StoreEffect(s.store, a, step);
      case HandlerMoves(a) => StoreEffect(s.store, a, step);
      case Deliver(post) => StoreEffect(s.store, SetStatus(post.step, post.status), step);
      case _ =>
    }
  }

  lemma {:induction false} PostedBeforeCalled(s: System, events: seq<Event>, step: StepId)
    requires PostedIfCalled(s, step)
    ensures PostedIfCalled(Run(s, events), step)
    decreases |events|
  {
    if events != [] {
      hide Next, PostedIfCalled;
      NextPosted(s, events[0], step);
      PostedBeforeCalled(Next(s, events[0]), events[1..], step);
    }
  }

  /**
   A crash verdict, in every run and at every next event: only the final look gives it,
   only with nothing in statusCh and no status sent, and only for a non-zero code the
   process really exited with.
   */
  lemma CrashOnlyWithoutStatus(events: seq<Event>, e: Event, step: StepId)
    requires step in Run(START, events).processes && !Wait.Decided(Run(START, events).processes[step].backend)
    ensures
      var s := Run(START, events);
      var b := s.processes[step].backend;
      step in Next(s, e).processes &&
      var b' := Next(s, e).processes[step].backend;
      Wait.Decided(b') && b'.main.outcome.Crash? ==>
        && e == BackendMoves(step, Wait.LookOnce) && b.statusCh.None? && !b.statusSent
        && b'.main.outcome.code != 0 && s.processes[step].runner.pc == Agent.Exited(b'.main.outcome.code)
  {
    StartInv();
    RunKeepsInv(START, events);
    hide Run;
    DecisionIsOwn(Run(START, events), e, step);
  }

  lemma DecisionIsOwn(s: System, e: Event, step: StepId)
    requires Inv(s) && step in s.processes && !Wait.Decided(s.processes[step].backend)
    ensures
      var b := s.processes[step].backend;
      step in Next(s, e).processes &&
      var b' := Next(s, e).processes[step].backend;
      Wait.Decided(b') && b'.main.outcome.Crash? ==>
        && e == BackendMoves(step, Wait.LookOnce) && b.statusCh.None? && !b.statusSent
        && b'.main.outcome.code != 0 && s.processes[step].runner.pc == Agent.Exited(b'.main.outcome.code)
  {
    assert ProcessOk(s, step);
    hide Inv, ProcessOk, Tokens.Next, StatusStore.Next, Agent.Next, Agent.Inv, Wait.Inv;
    if e.BackendMoves? && e.step == step {
      var p := s.processes[step];
      Wait.CrashIsGenuine(p.backend, WaiterOf(s.store, step), ExitOf(p.runner), e.backend);
    }
  }

  /** Neither goroutine of any step ever blocks on its send. */
  lemma NoSendBlocks(events: seq<Event>, step: StepId)
    requires step in Run(START, events).processes
    ensures
      var s := Run(START, events);
      var b := s.processes[step].backend;
      && (WaiterOf(s.store, step).Returned? && !b.statusSent ==> Enabled(s, BackendMoves(step, Wait.SendStatus)))
      && (b.watcher.Sending? ==> Enabled(s, BackendMoves(step, Wait.SendExit)))
  {
    StartInv();
    RunKeepsInv(START, events);
    hide Run;
    var s := Run(START, events);
    assert ProcessOk(s, step);
    Wait.SendsNeverBlock(s.processes[step].backend, WaiterOf(s.store, step), ExitOf(s.processes[step].runner));
  }

  // ----- The token -----

  /**
   A step's POSTs are admitted exactly until its wait returns or its token expires, however often the
   store was swept.
   */
  lemma AdmittedExactlyWhile(events: seq<Event>, step: StepId)
    requires step in Run(START, events).processes
    ensures
      var s := Run(START, events);
      var p := s.processes[step];
      && (!p.backend.main.Done? ==> p.token in s.tokens.live)
      && (Admitted(s, step) <==> !p.backend.main.Done? && s.tokens.clock <= s.tokens.live[p.token].expiresAt)
  {
    StartInv();
    RunKeepsInv(START, events);
    hide Run;
    var s := Run(START, events);
    assert TokenOk(s.tokens, s.processes, step);
    Tokens.AnswersAgree(s.tokens, s.processes[step].token);
  }

  lemma RefusedOnceReturned(s: System, step: StepId)
    requires Inv(s) && step in s.processes && s.processes[step].backend.main.Done?
    ensures !Admitted(s, step)
  {
    assert TokenOk(s.tokens, s.processes, step);
    Tokens.AnswersAgree(s.tokens, s.processes[step].token);
  }

  lemma NextAfterReturn(s: System, e: Event, step: StepId)
    requires step in s.processes && s.processes[step].backend.main.Done? && !Admitted(s, step)
    ensures
      var t := Next(s, e);
      && step in t.processes && t.processes[step].backend.main == s.processes[step].backend.main
      && History(t.store.called, step) == History(s.store.called, step)
  {
    hide Tokens.Next, Admitted;
    match e {
      case WaiterMoves(_, a) => StoreEffect(s.store, a, step);
      case HandlerMoves(a) => StoreEffect(s.store, a, step);
      case Deliver(post) => StoreEffect(s.store, SetStatus(post.step, post.status), step);
      case _ =>
    }
  }

  /** How many statuses of the step have been stored or may still be, by the handlers that are under way. */
  function StorableOf(s: System, step: StepId): nat {
    |History(s.store.stored, step)| + StatusStore.InFlight(s.store.setters, step)
  }

  lemma NextStorable(s: System, e: Event, step: StepId)
    requires step in s.processes && !Admitted(s, step)
    ensures StorableOf(Next(s, e), step) <= StorableOf(s, step)
    ensures History(s.store.stored, step) <= History(Next(s, e).store.stored, step)
  {
    hide Tokens.Next, Tokens.Enabled, Admitted, StatusStore.Next, StatusStore.Enabled, StatusStore.InFlight;
    match e {
      case WaiterMoves(_, a) => StatusStore.StoringFinishesACall(s.store, a, step);
      case HandlerMoves(a) => StatusStore.StoringFinishesACall(s.store, a, step);
      case Deliver(post) => StatusStore.StoringFinishesACall(s.store, SetStatus(post.step, post.status), step);
      case _ =>
    }
  }

  /**
   After the wait has returned its token never validates again, in any continuation, and
   no later POST for the step reaches the store; what is still stored for the step comes from
   handlers that were under way at the return, at most once each.
   */
  lemma {:induction false} NothingAcceptedAfterReturn(s: System, events: seq<Event>, step: StepId)
    requires Inv(s) && step in s.processes && s.processes[step].backend.main.Done?
    ensures
      var t := Run(s, events);
      && step in t.processes && t.processes[step].backend.main == s.processes[step].backend.main
      && !Admitted(t, step)
      && History(t.store.called, step) == History(s.store.called, step)
      && History(s.store.stored, step) <= History(t.store.stored, step)
      && StorableOf(t, step) <= StorableOf(s, step)
    decreases |events|
  {
    RefusedOnceReturned(s, step);
    if events != [] {
      hide Inv, Next, Admitted, StorableOf;
      NextKeepsInv(s, events[0]);
      NextAfterReturn(s, events[0], step);
      NextStorable(s, events[0], step);
      NothingAcceptedAfterReturn(Next(s, events[0]), events[1..], step);
    }
  }

  // ----- Termination -----

  /** A move of the step's method or of one of its two goroutines, as opposed to what is done to them. */
  predicate OwnMove(e: Event, step: StepId) {
    (e.WaiterMoves? && e.step == step) || (e.BackendMoves? && e.step == step && Wait.Own(e.backend))
  }

  /** How many of the events are effective moves of the step's own. */
  function MovesOf(s: System, events: seq<Event>, step: StepId): nat
    decreases |events|
  {
    if events == [] then 0
    else (if OwnMove(events[0], step) && Enabled(s, events[0]) then 1 else 0)
         + MovesOf(Next(s, events[0]), events[1..], step)
  }

  function MeasureOf(s: System, step: StepId): nat
    requires step in s.processes
  {
    Wait.Measure(s.processes[step].backend, WaiterOf(s.store, step))
  }

  /** The timer of the step's wait has run out, or its context is cancelled. */
  predicate TimeIsUp(s: System, step: StepId)
    requires step in s.processes
  {
    var p := s.processes[step];
    p.backend.contextDone || (p.deadline.Some? && s.tokens.clock >= p.deadline.value)
  }

  /** What makes the method return before long: its time is up, or a non-zero exit has been seen. */
  predicate IsDue(s: System, step: StepId)
    requires step in s.processes
  {
    TimeIsUp(s, step) || Wait.ExitSeen(s.processes[step].backend)
  }

  predicate HasReturned(s: System, step: StepId)
    requires step in s.processes
  {
    s.processes[step].backend.main.Done?
  }

  lemma MoveCounts(s: System, e: Event, step: StepId)
    requires Inv(s) && step in s.processes
    ensures
      var moved := if OwnMove(e, step) && Enabled(s, e) then 1 else 0;
      step in Next(s, e).processes && MeasureOf(Next(s, e), step) + moved <= MeasureOf(s, step)
  {
    hide Tokens.Next, TokensOk;
    assert ProcessOk(s, step);
    if Enabled(s, e) {
      var p := s.processes[step];
      match e {
        case BackendMoves(x, a) =>
          if x == step { Wait.EveryStepCounts(p.backend, WaiterOf(s.store, step), ExitOf(p.runner), a); }
        case WaiterMoves(x, a) => StoreMoveCounts(s, a, step);
        case HandlerMoves(a) => StoreMoveCounts(s, a, step);
        case Deliver(post) => StoreMoveCounts(s, SetStatus(post.step, post.status), step);
        case _ =>
      }
    }
  }

  lemma StoreMoveCounts(s: System, a: Action, step: StepId)
    requires Inv(s) && step in s.processes
    ensures
      var w' := WaiterOf(StatusStore.Next(s.store, a), step);
      var p := s.processes[step];
      && Wait.Measure(p.backend, w') <= MeasureOf(s, step)
      && (StatusStore.Enabled(s.store, a) && WaiterAllowed(p, step, s.tokens.clock, a) ==>
            Wait.Measure(p.backend, w') < MeasureOf(s, step))
  {
    assert ProcessOk(s, step);
    StoreEffect(s.store, a, step);
    var p := s.processes[step];
    var w, w' := WaiterOf(s.store, step), WaiterOf(StatusStore.Next(s.store, a), step);
    if w' != w {
      Wait.WaiterStepsCount(p.backend, w, ExitOf(p.runner), w');
    }
  }

  /** The watcher of the step has seen an exit with this non-zero code. */
  predicate SawExit(s: System, step: StepId, code: int)
    requires step in s.processes
  {
    var b := s.processes[step].backend;
    Wait.ExitSeen(b) && b.watcher.code == code
  }

  lemma NextKeepsTimeUp(s: System, e: Event, step: StepId)
    requires step in s.processes && ProcessOk(s, step)
    ensures step in Next(s, e).processes
    ensures TimeIsUp(s, step) ==> TimeIsUp(Next(s, e), step)
    ensures HasReturned(s, step) ==> HasReturned(Next(s, e), step)
    ensures forall code :: SawExit(s, step, code) ==> SawExit(Next(s, e), step, code)
  {
    hide Tokens.Next, StatusStore.Next, Agent.Next, Agent.Inv, Wait.Inv;
    match e {
      case Launch(_, minted, ttl) => Tokens.ClockGoesOn(s.tokens, Tokens.Create(minted, ttl));
      case BackendMoves(x, _) =>
        if x in s.processes { Tokens.ClockGoesOn(s.tokens, Tokens.Revoke(s.processes[x].token)); }
      case Deliver(post) =>
        if post.step in s.processes { Tokens.ClockGoesOn(s.tokens, Tokens.Validate(s.processes[post.step].token)); }
      case TokenMoves(a) => Tokens.ClockGoesOn(s.tokens, a);
      case _ =>
    }
  }

  /**
   In any run whatever, the method and its goroutines take at most as many moves as the measure allows,
   which is never over eleven.
   */
  lemma {:induction false} MovesAreBounded(s: System, events: seq<Event>, step: StepId)
    requires Inv(s) && step in s.processes
    ensures
      var t := Run(s, events);
      step in t.processes && MovesOf(s, events, step) + MeasureOf(t, step) <= MeasureOf(s, step) <= 11
    decreases |events|
  {
    if events != [] {
      MoveCounts(s, events[0], step);
      NextKeepsInv(s, events[0]);
      hide Inv, Next, Enabled, OwnMove, Wait.Measure;
      MovesAreBounded(Next(s, events[0]), events[1..], step);
    }
  }

  lemma {:induction false} TimeStaysUp(s: System, events: seq<Event>, step: StepId)
    requires Inv(s) && step in s.processes
    ensures
      var t := Run(s, events);
      && step in t.processes
      && (TimeIsUp(s, step) ==> TimeIsUp(t, step)) && (HasReturned(s, step) ==> HasReturned(t, step))
      && forall code :: SawExit(s, step, code) ==> SawExit(t, step, code)
    decreases |events|
  {
    if events != [] {
      assert ProcessOk(s, step);
      NextKeepsTimeUp(s, events[0], step);
      NextKeepsInv(s, events[0]);
      hide Inv, ProcessOk, Next, TimeIsUp, HasReturned, SawExit;
      TimeStaysUp(Next(s, events[0]), events[1..], step);
    }
  }

  ghost predicate CanMove(s: System, step: StepId) {
    exists e :: OwnMove(e, step) && Enabled(s, e)
  }

  /**
   Once the time is up or a non-zero exit has been seen, the method is never stuck: until it returns, a move of
   its own is enabled.
   */
  lemma OwnMoveIsEnabled(s: System, step: StepId)
    requires Inv(s) && step in s.processes && IsDue(s, step) && !HasReturned(s, step)
    ensures CanMove(s, step)
  {
    if TimeIsUp(s, step) {
      OwnMoveOnceTimeIsUp(s, step);
    } else {
      assert ProcessOk(s, step);
      var p := s.processes[step];
      var w, exit := WaiterOf(s.store, step), ExitOf(p.runner);
      Wait.NotStuckOnceExitSeen(p.backend, w, exit);
      hide Inv, ProcessOk, Wait.Inv;
      var a: Wait.Action :| Wait.Own(a) && Wait.Enabled(p.backend, w, exit, a);
      assert OwnMove(BackendMoves(step, a), step) && Enabled(s, BackendMoves(step, a));
    }
  }

  /** The timer is set when WaitForStatus begins, for two hours. */
  lemma TimerRunsTwoHours(s: System, step: StepId)
    requires Enabled(s, WaiterMoves(step, BeginWait(step)))
    ensures
      var t := Next(s, WaiterMoves(step, BeginWait(step)));
      step in t.processes && t.processes[step].deadline == Some(s.tokens.clock + 2 * 60 * 60)
  {
  }

  lemma OwnMoveOnceTimeIsUp(s: System, step: StepId)
    requires Inv(s) && step in s.processes && TimeIsUp(s, step) && !HasReturned(s, step)
    ensures CanMove(s, step)
  {
    assert ProcessOk(s, step) && StepOk(s.store, step);
    var p := s.processes[step];
    var w := WaiterOf(s.store, step);
    if w.Returned? { Wait.NeverStuck(p.backend, w, ExitOf(p.runner)); }
    var e :=
      if w.Idle? then WaiterMoves(step, BeginWait(step))
      else if w.Waiting? then WaiterMoves(step, if p.backend.contextDone then Cancel(step) else Expire(step))
      else if w.Leaving? then WaiterMoves(step, Depart(step))
      else if !p.backend.statusSent then BackendMoves(step, Wait.SendStatus)
      else if p.backend.main.Deferring? then BackendMoves(step, Wait.RunDefers)
      else if p.backend.main.FinalCheck? then BackendMoves(step, Wait.LookOnce)
      else BackendMoves(step, Wait.TakeStatus);
    assert OwnMove(e, step) && Enabled(s, e);
  }

  lemma StoreKeepsWaiterMove(s: State, a: Action, mine: Action, step: StepId)
    requires StatusStore.Inv(s) && StatusStore.Enabled(s, mine) && !mine.Locate? && !mine.Send? && mine.step == step
    requires a.Locate? || a.Send? || a.SetStatus? || a.step != step
    ensures StatusStore.Enabled(StatusStore.Next(s, a), mine)
  {
    StoreEffect(s, a, step);
    assert StepOk(s, step);
    if !a.Locate? && !a.Send? { assert StepOk(s, a.step); }
  }

  lemma StoreKeepsEnabled(s: System, e: Event, a: Action, step: StepId)
    requires Inv(s) && OwnMove(e, step) && Enabled(s, e)
    requires a.Locate? || a.Send? || a.SetStatus? || a.step != step
    ensures Enabled(s.(store := StatusStore.Next(s.store, a)), e)
  {
    StoreEffect(s.store, a, step);
    if e.WaiterMoves? {
      StoreKeepsWaiterMove(s.store, a, e.waiter, step);
    }
  }

  lemma BackendKeepsEnabled(s: System, e: Event, x: StepId, a: Wait.Action, step: StepId)
    requires OwnMove(e, step) && Enabled(s, e) && Enabled(s, BackendMoves(x, a)) && !OwnMove(BackendMoves(x, a), step)
    ensures Enabled(Next(s, BackendMoves(x, a)), e)
  {
    hide Tokens.Next;
    Tokens.ClockGoesOn(s.tokens, Tokens.Revoke(s.processes[x].token));
    if x == step && e.BackendMoves? {
      var p := s.processes[step];
      Wait.OthersDoNotDisable(p.backend, WaiterOf(s.store, step), ExitOf(p.runner), e.backend, a);
    }
  }

  /** Nobody else can take an enabled move of the method away. */
  lemma OthersDoNotDisable(s: System, e: Event, other: Event, step: StepId)
    requires Inv(s) && OwnMove(e, step) && !OwnMove(other, step) && Enabled(s, e)
    ensures Enabled(Next(s, other), e)
  {
    hide Inv, Tokens.Next, Tokens.Enabled, Tokens.Validated, StatusStore.Next, StatusStore.Enabled, Agent.Next,
      Wait.Next;
    if Enabled(s, other) {
      match other {
        case BackendMoves(x, a) => BackendKeepsEnabled(s, e, x, a, step);
        case WaiterMoves(x, a) => StoreKeepsEnabled(s, e, a, step);
        case HandlerMoves(a) => StoreKeepsEnabled(s, e, a, step);
        case Deliver(post) =>
          Tokens.ClockGoesOn(s.tokens, Tokens.Validate(s.processes[post.step].token));
          StoreKeepsEnabled(s, e, SetStatus(post.step, post.status), step);
        case Launch(_, minted, ttl) => Tokens.ClockGoesOn(s.tokens, Tokens.Create(minted, ttl));
        case TokenMoves(a) => Tokens.ClockGoesOn(s.tokens, a);
        case _ =>
      }
    }
  }

  /**
   A schedule in rounds is fair to the step when every round at whose start a move of the
   step's own is enabled makes at least one such move somewhere in it.
   */
  ghost predicate Fair(s: System, rounds: seq<seq<Event>>, step: StepId)
    decreases |rounds|
  {
    rounds != [] ==>
      (CanMove(s, step) ==> MovesOf(s, rounds[0], step) > 0) && Fair(Run(s, rounds[0]), rounds[1..], step)
  }

  function RunRounds(s: System, rounds: seq<seq<Event>>): System
    decreases |rounds|
  {
    if rounds == [] then s else RunRounds(Run(s, rounds[0]), rounds[1..])
  }

  lemma DueStays(s: System, t: System, step: StepId)
    requires step in s.processes && step in t.processes
    requires TimeIsUp(s, step) ==> TimeIsUp(t, step)
    requires forall code :: SawExit(s, step, code) ==> SawExit(t, step, code)
    ensures IsDue(s, step) ==> IsDue(t, step)
  {
    if Wait.ExitSeen(s.processes[step].backend) {
      assert SawExit(s, step, s.processes[step].backend.watcher.code);
    }
  }

  lemma {:induction false} FairRoundsReturn(s: System, rounds: seq<seq<Event>>, step: StepId)
    requires Inv(s) && step in s.processes && IsDue(s, step) && Fair(s, rounds, step)
    requires HasReturned(s, step) || |rounds| >= MeasureOf(s, step)
    ensures step in RunRounds(s, rounds).processes && HasReturned(RunRounds(s, rounds), step)
    ensures Inv(RunRounds(s, rounds))
    ensures forall code :: SawExit(s, step, code) ==> SawExit(RunRounds(s, rounds), step, code)
    decreases |rounds|
  {
    if rounds != [] {
      if !HasReturned(s, step) { OwnMoveIsEnabled(s, step); }
      MovesAreBounded(s, rounds[0], step);
      TimeStaysUp(s, rounds[0], step);
      RunKeepsInv(s, rounds[0]);
      DueStays(s, Run(s, rounds[0]), step);
      hide Inv, Next, IsDue, HasReturned, CanMove, Run, MovesOf, MeasureOf, SawExit;
      FairRoundsReturn(Run(s, rounds[0]), rounds[1..], step);
    }
  }

  /**
   Termination: from any reachable state in which two hours have passed on the clock since
   the wait began, or the context is cancelled, every fair schedule of eleven rounds - whatever else the network,
   the stores and the other runs do in them - ends with the method returned.
   */
  lemma ReturnsOnceTimeIsUp(events: seq<Event>, step: StepId, rounds: seq<seq<Event>>)
    requires step in Run(START, events).processes && TimeIsUp(Run(START, events), step)
    requires Fair(Run(START, events), rounds, step) && |rounds| >= 11
    ensures
      var s := RunRounds(Run(START, events), rounds);
      step in s.processes && HasReturned(s, step)
  {
    StartInv();
    RunKeepsInv(START, events);
    MovesAreBounded(Run(START, events), [], step);
    assert IsDue(Run(START, events), step);
    hide *;
    FairRoundsReturn(Run(START, events), rounds, step);
  }

  /**
   A non-zero exit ends the wait, however far the timer still is: from any reachable state in
   which the watcher has seen one, every fair schedule of eleven rounds ends with the method
   returned, and with the crash verdict for that very code unless a status was sent first.
   */
  lemma ExitWithoutStatusIsACrash(events: seq<Event>, step: StepId, rounds: seq<seq<Event>>, code: int)
    requires step in Run(START, events).processes && SawExit(Run(START, events), step, code)
    requires Fair(Run(START, events), rounds, step) && |rounds| >= 11
    ensures
      var s := RunRounds(Run(START, events), rounds);
      && step in s.processes && HasReturned(s, step) && s.processes[step].runner.pc == Agent.Exited(code)
      && (!s.processes[step].backend.statusSent ==> s.processes[step].backend.main.outcome == Wait.Crash(code))
  {
    StartInv();
    RunKeepsInv(START, events);
    MovesAreBounded(Run(START, events), [], step);
    assert IsDue(Run(START, events), step);
    hide Run, RunRounds, Fair, MeasureOf;
    FairRoundsReturn(Run(START, events), rounds, step);
    var s := RunRounds(Run(START, events), rounds);
    assert ProcessOk(s, step) && SawExit(s, step, code);
  }

  /**
   And the verdict is within reach of the method alone, whatever the waiter is doing: from any state
   in which the process has exited with a non-zero code and no status was sent, at most six
   steps of watcher and method, runtime.Wait's answer first, all of them effective, end in it.
   */
  lemma {:induction false} CrashByItsOwnMoves(s: System, step: StepId, code: int) returns (moves: seq<Wait.Action>)
    requires Inv(s) && step in s.processes
    requires Wait.CrashIsDue(s.processes[step].backend, ExitOf(s.processes[step].runner), code)
    ensures |moves| == Wait.StepsToCrash(s.processes[step].backend) <= 6
    ensures var own := {Wait.SendExit, Wait.TakeExit, Wait.GraceElapses, Wait.LookOnce, Wait.RunDefers};
      forall i :: 0 <= i < |moves| ==> moves[i] in own + {Wait.SeeExit}
    ensures var t := RunMoves(s, step, moves); t.processes[step].backend.main == Wait.Done(Wait.Crash(code))
    decreases Wait.StepsToCrash(s.processes[step].backend)
  {
    moves := [];
    var p := s.processes[step];
    assert ProcessOk(s, step);
    Wait.CrashComesCloser(p.backend, WaiterOf(s.store, step), ExitOf(p.runner), code);
    if !HasReturned(s, step) {
      var a := Wait.CrashMove(p.backend);
      NextKeepsInv(s, BackendMoves(step, a));
      hide Inv, ProcessOk, Wait.Inv, Wait.CrashIsDue, Wait.StepsToCrash, Tokens.Next;
      var rest := CrashByItsOwnMoves(Next(s, BackendMoves(step, a)), step, code);
      moves := [a] + rest;
      assert moves[1..] == rest;
    }
  }

  /** The given moves of one step's method, one after the other. */
  function RunMoves(s: System, step: StepId, moves: seq<Wait.Action>): (t: System)
    requires step in s.processes
    ensures step in t.processes
    decreases |moves|
  {
    if moves == [] then s else RunMoves(Next(s, BackendMoves(step, moves[0])), step, moves[1..])
  }

  lemma OneOwnMove(s: System, step: StepId) returns (e: Event)
    requires Inv(s) && step in s.processes && IsDue(s, step) && !HasReturned(s, step)
    ensures OwnMove(e, step) && Enabled(s, e)
    ensures Inv(Next(s, e)) && step in Next(s, e).processes && IsDue(Next(s, e), step)
    ensures MeasureOf(Next(s, e), step) < MeasureOf(s, step)
  {
    OwnMoveIsEnabled(s, step);
    hide Next, Enabled, OwnMove, TimeIsUp, HasReturned, MeasureOf, SawExit;
    e :| OwnMove(e, step) && Enabled(s, e);
    MoveCounts(s, e, step);
    NextKeepsInv(s, e);
    assert ProcessOk(s, step);
    NextKeepsTimeUp(s, e, step);
    DueStays(s, Next(s, e), step);
  }

  /** Such schedules exist: at most eleven moves of its own, and nothing else, bring the method to its return. */
  lemma {:induction false} ReturnsByItsOwnMoves(s: System, step: StepId) returns (moves: seq<Event>)
    requires Inv(s) && step in s.processes && IsDue(s, step)
    ensures |moves| <= MeasureOf(s, step) && forall i :: 0 <= i < |moves| ==> OwnMove(moves[i], step)
    ensures MovesOf(s, moves, step) == |moves|
    ensures step in Run(s, moves).processes && HasReturned(Run(s, moves), step)
    decreases MeasureOf(s, step)
  {
    moves := [];
    if !HasReturned(s, step) {
      var e := OneOwnMove(s, step);
      hide Inv, Next, Enabled, OwnMove, IsDue, HasReturned, MeasureOf;
      var rest := ReturnsByItsOwnMoves(Next(s, e), step);
      moves := [e] + rest;
      assert moves[1..] == rest;
    }
  }
}
