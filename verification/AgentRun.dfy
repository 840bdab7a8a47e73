/**
 The agent_run action: sidecars, setup commands, callback token, agent, and the
 deferred teardown of all of it in reverse order, as one sequential run among any
 number of others.  In callback mode the wait returns what it returned in a history of
 CallbackSystem, which is a parameter here; the deferred revocation follows it.
 */
module AgentRun {
  import opened Options
  import opened DockerDaemon
  import opened Sidecars
  import opened DockerRuntime
  import opened Text
  import CM = Containers
  import CallbackSystem
  import TokenStore

  const COMMAND_ORDER := ["build", "migrate", "seed", "test"]

  /** The setup commands that are present and not blank, of the first `k` keys in the fixed order. */
  function PresentCommands(commands: map<string, string>, k: nat): seq<string>
    requires k <= |COMMAND_ORDER|
  {
    if k == 0 then []
    else
      var key := COMMAND_ORDER[k - 1];
      PresentCommands(commands, k - 1) + if key in commands && TrimSpace(commands[key]) != "" then [key] else []
  }

  /** The key, if its command is there and has a character that is not whitespace. */
  predicate IsPresent(commands: map<string, string>, key: string) {
    key in commands && exists i :: 0 <= i < |commands[key]| && !IsSpace(commands[key][i])
  }

  lemma PresentExactly(commands: map<string, string>)
    ensures
      PresentCommands(commands, |COMMAND_ORDER|)
      == (if IsPresent(commands, "build") then ["build"] else [])
         + (if IsPresent(commands, "migrate") then ["migrate"] else [])
         + (if IsPresent(commands, "seed") then ["seed"] else [])
         + (if IsPresent(commands, "test") then ["test"] else [])
  {
    hide TrimSpace, PresentCommands, IsPresent;
    NonePresentYet(commands);
    OneMorePresent(commands, 0);
    OneMorePresent(commands, 1);
    OneMorePresent(commands, 2);
    OneMorePresent(commands, 3);
  }

  lemma NonePresentYet(commands: map<string, string>)
    ensures PresentCommands(commands, 0) == []
  {
  }

  lemma OneMorePresent(commands: map<string, string>, i: nat)
    requires i < |COMMAND_ORDER|
    ensures PresentCommands(commands, i + 1)
         == PresentCommands(commands, i) + if IsPresent(commands, COMMAND_ORDER[i]) then [COMMAND_ORDER[i]] else []
  {
    if COMMAND_ORDER[i] in commands { TrimSpaceIsEmpty(commands[COMMAND_ORDER[i]]); }
    hide TrimSpace, IsSpace;
  }

  const CALLBACK_TOKEN_TTL := 7200

  /** What one Execute did besides its error: when it minted its token, and how the wait ended, if it reached one. */
  datatype Trace = Trace(mintedAt: Option<int>, exit: Option<Result<int>>) {
    predicate Waited() { exit.Some? }

    /** The token was minted and nothing has revoked it. */
    predicate LeavesToken() { mintedAt.Some? && !Waited() }
  }

  /** A history of the callback system, as seen by the wait for one of its steps. */
  datatype History = History(events: seq<CallbackSystem.Event>, step: string) {
    /** In it the step was launched with this token, at the clock reading at which the token was minted. */
    predicate IsOf(token: TokenStore.Token, mintedAt: Option<int>) {
      var s := CallbackSystem.Run(CallbackSystem.START, events);
      step in s.processes && s.processes[step].token == token && (mintedAt.Some? ==> LaunchedAt(mintedAt.value))
    }

    predicate LaunchedAt(now: int) {
      exists i :: 0 <= i < |events| && events[i].Launch? && events[i].step == step
                  && events[i].ttl == CALLBACK_TOKEN_TTL && EnabledAt(i, now)
    }

    predicate EnabledAt(i: nat, now: int)
      requires i < |events|
    {
      var s := CallbackSystem.Run(CallbackSystem.START, events[..i]);
      s.tokens.clock == now && CallbackSystem.Enabled(s, events[i])
    }

    /** What the wait of that step returned in it; an error if it is not the step's or gave no code. */
    function Outcome(token: TokenStore.Token, mintedAt: Option<int>): Result<int> {
      var s := CallbackSystem.Run(CallbackSystem.START, events);
      if IsOf(token, mintedAt) && s.processes[step].backend.main.Done? && s.processes[step].backend.main.outcome.Exit?
      then Success(s.processes[step].backend.main.outcome.code)
      else Failure
    }

    /** The provider's last result was 0, the agent pushed its changes, and it reported that. */
    ghost predicate Pushed() {
      var s := CallbackSystem.Run(CallbackSystem.START, events);
      step in s.processes &&
      var runner := s.processes[step].runner;
      && runner.results != [] && runner.results[|runner.results| - 1] == 0 && runner.pushed
      && |runner.reports| == 1 && runner.reports[0].exitCode == 0
    }
  }

  lemma ZeroMeansPushed(h: History, token: TokenStore.Token, mintedAt: Option<int>)
    requires h.Outcome(token, mintedAt) == Success(0)
    ensures h.IsOf(token, mintedAt) && h.Pushed()
  {
    CallbackSystem.NoFalseSuccess(h.events, h.step);
  }

  /** How one setup command went: never created, created but not started, or run to what its wait gave. */
  datatype CommandRun = NotCreated | NotStarted(id: ContainerId) | Ran(id: ContainerId, exit: Result<int>) {
    predicate Succeeded() { Ran? && exit == Success(0) }

    /** What the journal shows of it. */
    function Entries(key: string, on: seq<Network>): seq<CM.Entry> {
      match this
      case NotCreated => []
      case NotStarted(id) => [CM.Created(id, EnvCommand(key), on)]
      case Ran(id, exit) => [CM.Created(id, EnvCommand(key), on), CM.Started(id), CM.Waited(id, exit)]
    }
  }

  function KeysOf(runs: seq<(string, CommandRun)>): seq<string> {
    seq(|runs|, i requires 0 <= i < |runs| => runs[i].0)
  }

  /** A command's container is on the run network, if there is one. */
  function CommandNetworks(runNetwork: Option<Network>): seq<Network> {
    if runNetwork.Some? then [runNetwork.value] else []
  }

  function EntriesOf(runs: seq<(string, CommandRun)>, on: seq<Network>): seq<CM.Entry> {
    if runs == [] then []
    else
      var n := |runs| - 1;
      EntriesOf(runs[..n], on) + runs[n].1.Entries(runs[n].0, on)
  }

  /** The callback token store: not configured, failing, or at work. */
  datatype TokenService = Absent | Failing | Working

  /**
   How the parts of Execute that are not modelled turn out: whether story, project, prompt, image and environment
   are there, whether the command image and the clone URL are, the token store, and the agent's environment.
   */
  datatype Inputs = Inputs(prepared: bool, commandsReady: bool, tokenStore: TokenService, environmentBuilt: bool)

  predicate HasCommands(env: Option<Environment>) {
    env.Some? && env.value.commands != map[]
  }

  /** The last setup command run came to its wait, and that did not give exit code 0. */
  predicate CommandFailed(runs: seq<(string, CommandRun)>) {
    runs != [] && var how := runs[|runs| - 1].1; how.Ran? && how.exit != Success(0)
  }

  /** What may keep a run whose sidecars are up, and whom the daemon obeys, from its wait. */
  predicate Amiss(inputs: Inputs, env: Option<Environment>, callbackMode: bool, runs: seq<(string, CommandRun)>) {
    || (HasCommands(env) && !inputs.commandsReady)
    || CommandFailed(runs)
    || (callbackMode && inputs.tokenStore.Failing?)
    || !inputs.environmentBuilt
  }

  /** The setup commands ran in the fixed order up to the first that failed, or `all` of them with success. */
  ghost predicate CommandsRan(env: Option<Environment>, runs: seq<(string, CommandRun)>, all: bool) {
    var present := if env.Some? then PresentCommands(env.value.commands, |COMMAND_ORDER|) else [];
    && KeysOf(runs) <= present
    && (forall i :: 0 <= i < |runs| - 1 ==> runs[i].1.Succeeded())
    && (all ==> KeysOf(runs) == present && forall i :: 0 <= i < |runs| ==> runs[i].1.Succeeded())
  }

  /** The services launched, the setup commands run and how far the agent got. */
  datatype Deeds = Deeds(launched: seq<string>, runs: seq<(string, CommandRun)>, agent: AgentLaunch) {
    function AfterLaunch(isolate: bool, runNetwork: Option<Network>): seq<CM.Entry> {
      EntriesOf(runs, CommandNetworks(runNetwork)) + agent.Entries(AgentNetworks(isolate, runNetwork))
    }

    /** All sidecars before the first command, and all commands before the agent. */
    ghost predicate Ordered(env: Option<Environment>) {
      && launched <= NamesOf(ServicesOf(env))
      && (runs != [] || !agent.Uncreated? ==> launched == NamesOf(ServicesOf(env)))
      && CommandsRan(env, runs, !agent.Uncreated?)
    }
  }

  /** From `was` to `now` the journal shows the sidecars launched, and at its end just those commands and that agent. */
  ghost predicate Journalled(was: seq<CM.Entry>, now: seq<CM.Entry>, deeds: Deeds, isolate: bool,
                             runNetwork: Option<Network>)
  {
    var last := deeds.AfterLaunch(isolate, runNetwork);
    && was <= now && |was| + |last| <= |now| && now[|now| - |last|..] == last
    && CM.SidecarsIn(now) == CM.SidecarsIn(was) + deeds.launched
  }

  /** The store holds the run's token exactly when it was minted and not revoked. */
  ghost predicate HoldsToken(m: TokenStore.Tokens, token: TokenStore.Token, trace: Trace) {
    && (token in m <==> trace.LeavesToken())
    && (token in m ==> m[token].expiresAt == trace.mintedAt.value + CALLBACK_TOKEN_TTL)
  }

  class AgentRunAction {
    const containers: CM.ContainerManager
    const sidecars: SidecarManager
    const runtime: Runtime
    const tokens: TokenStore.ContainerTokenStore

    constructor (containers: CM.ContainerManager, sidecars: SidecarManager, runtime: Runtime,
                 tokens: TokenStore.ContainerTokenStore)
      requires sidecars.Configured() && sidecars.containers == containers && runtime.containers == containers
      ensures Wired()
      ensures this.containers == containers && this.sidecars == sidecars && this.runtime == runtime
        && this.tokens == tokens
    {
      this.containers, this.sidecars, this.runtime, this.tokens := containers, sidecars, runtime, tokens;
    }

    /** One daemon behind the manager, the sidecars and the substrate. */
    predicate Wired() {
      sidecars.Configured() && sidecars.containers == containers && runtime.containers == containers
    }

    ghost predicate InOrder(run: RunId, runNetwork: Option<Network>)
      reads containers.daemon
    {
      && containers.daemon.Valid() && Wired()
      && OwnNetwork(containers.daemon.deployment.isolateRuns, run, runNetwork)
      && (runNetwork.Some? ==> containers.daemon.ViewOf(run).network)
    }

    /**
     From view `v` on nothing is left of the agent but what a cancelled create left behind, and its wait
     was reached exactly if it was launched.
     */
    ghost predicate AgentGone(v: View, run: RunId, runNetwork: Option<Network>, exit: Option<Result<int>>,
                              agent: AgentLaunch)
      reads containers.daemon
    {
      && Plus(v, containers.daemon.ViewOf(run), agent.Left(containers.context))
      && agent.Fits(containers.daemon.deployment.isolateRuns, runNetwork)
      && (exit.Some? <==> agent.Launched?)
    }

    // ----- Environment commands -----

    /** Starts the created command container and waits for it; its removal is deferred. */
    method StartCommand(run: RunId, key: string, id: ContainerId, ghost on: seq<Network>, ghost v: View,
                        ghost c: Container)
      returns (ok: bool, ghost how: CommandRun)
      requires containers.daemon.Valid() && v.started <= v.containers.Keys
      requires CM.Added(v, containers.daemon.ViewOf(run), id, c)
      modifies containers.daemon, containers`journal
      ensures containers.daemon.Valid() && containers.daemon.ViewOf(run) == v
      ensures containers.daemon.Onward(run)
      ensures how.NotStarted? ==> containers.Hindered(run, old(containers.daemon.refused[run]))
      ensures old(containers.journal) <= containers.journal && (ok <==> how.Succeeded())
      ensures [CM.Created(id, EnvCommand(key), on)] + containers.journal[|old(containers.journal)|..]
           == how.Entries(key, on)
    {
      how := NotStarted(id);
      ok := containers.Start(run, id);
      if ok {
        RemoveUndoesLaunch(v, containers.daemon.ViewOf(run), id, c);
        var exit := containers.Wait(run, id);
        how := Ran(id, exit);
        ok := exit == Success(0);
      } else {
        CM.RemoveUndoesAdd(v, containers.daemon.ViewOf(run), id, c);
      }
      containers.StopAndRemove(run, id);
    }

    method CreateCommand(run: RunId, key: string, runNetwork: Option<Network>)
      returns (id: Result<ContainerId>, ghost c: Container)
      requires containers.daemon.Valid() && OwnNetwork(containers.daemon.deployment.isolateRuns, run, runNetwork)
      modifies containers.daemon, containers`journal
      ensures containers.daemon.Valid() && containers.daemon.Onward(run)
      ensures id.Failure? ==>
        && containers.daemon.ViewOf(run) == old(containers.daemon.ViewOf(run))
        && containers.journal == old(containers.journal)
        && (|| containers.Hindered(run, old(containers.daemon.refused[run]))
            || (runNetwork.Some? && !old(containers.daemon.ViewOf(run)).network))
      ensures id.Success? ==>
        && CM.Added(old(containers.daemon.ViewOf(run)), containers.daemon.ViewOf(run), id.value, c)
        && containers.journal
           == old(containers.journal) + [CM.Created(id.value, EnvCommand(key), CommandNetworks(runNetwork))]
    {
      var opts := CM.Opts(run, EnvCommand(key), runNetwork, [], map[]);
      c := Container(EnvCommand(key), opts.Endpoints(0));
      assert opts.Networks() == CommandNetworks(runNetwork);
      hide CM.Added, CM.AfterCreate, ViewOk, CommandNetworks;
      ghost var v := containers.daemon.ViewOf(run);
      ghost var made;
      id, made := containers.Create(opts);
      CM.CreateWithoutExtras(v, opts, made, containers.context);
    }

    /**
     One ephemeral container on the run network; it is gone afterwards whatever happened.
     Success means the journal shows it created, started and waited for with exit code 0.
     */
    method RunOneCommand(run: RunId, key: string, runNetwork: Option<Network>) returns (ok: bool, ghost how: CommandRun)
      requires containers.daemon.Valid() && OwnNetwork(containers.daemon.deployment.isolateRuns, run, runNetwork)
      modifies containers.daemon, containers`journal
      ensures containers.daemon.Valid() && containers.daemon.ViewOf(run) == old(containers.daemon.ViewOf(run))
      ensures containers.journal == old(containers.journal) + how.Entries(key, CommandNetworks(runNetwork))
      ensures ok <==> how.Succeeded()
      ensures containers.daemon.Onward(run)
      ensures !how.Ran? ==>
        || containers.Hindered(run, old(containers.daemon.refused[run]))
        || (runNetwork.Some? && !old(containers.daemon.ViewOf(run)).network)
    {
      hide CM.Added, ViewOk;
      ghost var v := containers.daemon.ViewOf(run);
      containers.StartedExist(run);
      how := NotCreated;
      var id;
      ghost var c;
      id, c := CreateCommand(run, key, runNetwork);
      if id.Failure? {
        return false, how;
      }
      ok, how := StartCommand(run, key, id.value, CommandNetworks(runNetwork), v, c);
    }

    /**
     Runs the present commands in the fixed order and stops at the first that does not exit
     with code 0; the journal shows exactly those runs.  No container is left behind.
     */
    method RunEnvironmentCommands(run: RunId, env: Option<Environment>, runNetwork: Option<Network>, ready: bool)
      returns (ok: bool, ghost runs: seq<(string, CommandRun)>)
      requires containers.daemon.Valid() && OwnNetwork(containers.daemon.deployment.isolateRuns, run, runNetwork)
      modifies containers.daemon, containers`journal
      ensures containers.daemon.Valid() && containers.daemon.ViewOf(run) == old(containers.daemon.ViewOf(run))
      ensures containers.journal == old(containers.journal) + EntriesOf(runs, CommandNetworks(runNetwork))
      ensures CommandsRan(env, runs, ok) && (!ok && runs != [] ==> !runs[|runs| - 1].1.Succeeded())
      ensures containers.daemon.Onward(run)
      ensures !ok ==>
        || (HasCommands(env) && !ready) || CommandFailed(runs)
        || containers.Hindered(run, old(containers.daemon.refused[run]))
        || (runNetwork.Some? && !old(containers.daemon.ViewOf(run)).network)
    {
      hide EntriesOf, KeysOf, PresentCommands, TrimSpace;
      runs := [];
      NoEntries();
      assert containers.journal == old(containers.journal) + [];
      if env.None? || |env.value.commands| == 0 {
        if env.Some? { NoCommandsPresent(env.value.commands, |COMMAND_ORDER|); }
        return true, [];
      }
      if !ready {
        return false, [];
      }
      var commands := env.value.commands;
      for i := 0 to |COMMAND_ORDER|
        invariant containers.daemon.Valid() && containers.daemon.ViewOf(run) == old(containers.daemon.ViewOf(run))
        invariant containers.journal == old(containers.journal) + EntriesOf(runs, CommandNetworks(runNetwork))
        invariant KeysOf(runs) == PresentCommands(commands, i)
        invariant forall j :: 0 <= j < |runs| ==> runs[j].1.Succeeded()
        invariant containers.daemon.Onward(run)
      {
        PresentIsMonotone(commands, i + 1, |COMMAND_ORDER|);
        PresentStep(commands, i);
        var key := COMMAND_ORDER[i];
        if key in commands && TrimSpace(commands[key]) != "" {
          ghost var how, before := NotCreated, runs;
          var done;
          done, how := RunOneCommand(run, key, runNetwork);
          OneRunMore(before, key, how, CommandNetworks(runNetwork));
          runs := before + [(key, how)];
          if !done {
            return false, runs;
          }
        }
      }
      ok := true;
    }

    lemma PresentStep(commands: map<string, string>, i: nat)
      requires i < |COMMAND_ORDER|
      ensures
        var key := COMMAND_ORDER[i];
        PresentCommands(commands, i + 1) == PresentCommands(commands, i)
          + if key in commands && TrimSpace(commands[key]) != "" then [key] else []
    {
    }

    lemma NoEntries()
      ensures (forall on :: EntriesOf([], on) == []) && KeysOf([]) == []
      ensures forall commands :: PresentCommands(commands, 0) == []
    {
    }

    lemma OneRunMore(runs: seq<(string, CommandRun)>, key: string, how: CommandRun, on: seq<Network>)
      ensures EntriesOf(runs + [(key, how)], on) == EntriesOf(runs, on) + how.Entries(key, on)
      ensures KeysOf(runs + [(key, how)]) == KeysOf(runs) + [key]
    {
      assert (runs + [(key, how)])[..|runs|] == runs;
    }

    lemma {:induction false} NoSidecars(runs: seq<(string, CommandRun)>, on: seq<Network>)
      ensures forall e :: e in EntriesOf(runs, on) ==> !(e.Created? && e.role.Sidecar?)
    {
      if runs != [] {
        NoSidecars(runs[..|runs| - 1], on);
      }
    }

    lemma {:induction false} NoCommandsPresent(commands: map<string, string>, k: nat)
      requires commands == map[] && k <= |COMMAND_ORDER|
      ensures PresentCommands(commands, k) == []
    {
      if k > 0 {
        NoCommandsPresent(commands, k - 1);
      }
    }

    lemma {:induction false} PresentIsMonotone(commands: map<string, string>, j: nat, k: nat)
      requires j <= k <= |COMMAND_ORDER|
      ensures PresentCommands(commands, j) <= PresentCommands(commands, k)
    {
      if j < k {
        PresentIsMonotone(commands, j, k - 1);
      }
    }

    // ----- Dispatch -----

    /** prepareCallback: one fresh token per callback run, when a token store is configured. */
    method PrepareCallback(run: RunId, callbackMode: bool, service: TokenService, token: TokenStore.Token)
      returns (mintedAt: Result<Option<int>>)
      requires token !in tokens.tokens
      modifies tokens
      ensures mintedAt
           == if !callbackMode || service.Absent? then Success(None)
              else if service.Failing? then Failure
              else Success(Some(containers.daemon.clock))
      ensures mintedAt.Success? && mintedAt.value.Some? ==>
        && tokens.tokens.Keys == old(tokens.tokens).Keys + {token} && tokens.tokens - {token} == old(tokens.tokens)
        && tokens.tokens[token].expiresAt == mintedAt.value.value + 2 * 60 * 60
      ensures !(mintedAt.Success? && mintedAt.value.Some?) ==> tokens.tokens == old(tokens.tokens)
    {
      if !callbackMode {
        return Success(None);
      }
      match service {
        case Absent => return Success(None);
        case Failing => return Failure;
        case Working =>
          var now := containers.daemon.clock;
          tokens.Create(token, run, "", "", "", CALLBACK_TOKEN_TTL, now);
          return Success(Some(now));
      }
    }

    /**
     The wait: in callback mode what `history` says, else some exit code or an error.  The
     token is revoked on every path.
     */
    method Await(run: RunId, token: TokenStore.Token, mintedAt: Option<int>, history: Option<History>)
      returns (exit: Result<int>)
      requires containers.daemon.Valid() && HoldsToken(tokens.tokens, token, Trace(mintedAt, None))
      modifies containers.daemon, tokens
      ensures containers.daemon.Valid() && containers.daemon.ViewOf(run) == old(containers.daemon.ViewOf(run))
      ensures containers.daemon.Onward(run)
      ensures token !in tokens.tokens && (history.Some? ==> exit == history.value.Outcome(token, mintedAt))
    {
      containers.daemon.Interfere(run);
      tokens.Others(token, containers.daemon.clock);
      exit := *;
      if history.Some? {
        exit := history.value.Outcome(token, mintedAt);
      }
      if mintedAt.Some? {
        tokens.Revoke(token);
      }
    }

    /** executeViaRuntime, and the legacy direct path, which creates first and defers its cleanup before the start. */
    method Dispatch(run: RunId, runNetwork: Option<Network>, viaRuntime: bool, environmentBuilt: bool,
                    token: TokenStore.Token, mintedAt: Option<int>, history: Option<History>)
      returns (err: bool, exit: Option<Result<int>>, ghost agent: AgentLaunch)
      requires InOrder(run, runNetwork) && HoldsToken(tokens.tokens, token, Trace(mintedAt, None))
      modifies containers.daemon, containers`journal, tokens
      ensures InOrder(run, runNetwork) && HoldsToken(tokens.tokens, token, Trace(mintedAt, exit))
      ensures AgentGone(old(containers.daemon.ViewOf(run)), run, runNetwork, exit, agent)
      ensures containers.journal == old(containers.journal)
        + agent.Entries(AgentNetworks(containers.daemon.deployment.isolateRuns, runNetwork))
      ensures containers.daemon.Onward(run)
      ensures exit.None? ==> !environmentBuilt || containers.Hindered(run, old(containers.daemon.refused[run]))
      ensures err <==> exit != Some(Success(0))
      ensures exit.Some? && history.Some? ==> exit.value == history.value.Outcome(token, mintedAt)
    {
      if viaRuntime {
        err, exit, agent := DispatchViaRuntime(run, runNetwork, environmentBuilt, token, mintedAt, history);
      } else {
        err, exit, agent := DispatchDirectly(run, runNetwork, environmentBuilt, token, mintedAt, history);
      }
    }

    method DispatchViaRuntime(run: RunId, runNetwork: Option<Network>, environmentBuilt: bool, token: TokenStore.Token,
                              mintedAt: Option<int>, history: Option<History>)
      returns (err: bool, exit: Option<Result<int>>, ghost agent: AgentLaunch)
      requires InOrder(run, runNetwork) && HoldsToken(tokens.tokens, token, Trace(mintedAt, None))
      modifies containers.daemon, containers`journal, tokens
      ensures InOrder(run, runNetwork) && HoldsToken(tokens.tokens, token, Trace(mintedAt, exit))
      ensures AgentGone(old(containers.daemon.ViewOf(run)), run, runNetwork, exit, agent)
      ensures containers.journal == old(containers.journal)
        + agent.Entries(AgentNetworks(containers.daemon.deployment.isolateRuns, runNetwork))
      ensures containers.daemon.Onward(run)
      ensures exit.None? ==> !environmentBuilt || containers.Hindered(run, old(containers.daemon.refused[run]))
      ensures err <==> exit != Some(Success(0))
      ensures exit.Some? && history.Some? ==> exit.value == history.value.Outcome(token, mintedAt)
    {
      hide Plus, AgentNetworks, AgentEndpoints;
      ghost var v := containers.daemon.ViewOf(run);
      var isolate := containers.daemon.deployment.isolateRuns;
      PlusNothing(v);
      agent := Uncreated;
      containers.StartedExist(run);
      if !environmentBuilt {
        return true, None, agent;
      }
      var handle;
      handle, agent := runtime.Launch(run, runNetwork);
      if handle.Failure? {
        PlusKeepsNetwork(v, containers.daemon.ViewOf(run), agent.Left(containers.context));
        return true, None, agent;
      }
      RemoveUndoesLaunch(v, containers.daemon.ViewOf(run), handle.value,
                         Container(Agent, AgentEndpoints(isolate, runNetwork)));
      var waited := Await(run, token, mintedAt, history);
      runtime.Stop(run, handle.value);
      return waited != Success(0), Some(waited), agent;
    }

    method DispatchDirectly(run: RunId, runNetwork: Option<Network>, environmentBuilt: bool, token: TokenStore.Token,
                            mintedAt: Option<int>, history: Option<History>)
      returns (err: bool, exit: Option<Result<int>>, ghost agent: AgentLaunch)
      requires InOrder(run, runNetwork) && HoldsToken(tokens.tokens, token, Trace(mintedAt, None))
      modifies containers.daemon, containers`journal, tokens
      ensures InOrder(run, runNetwork) && HoldsToken(tokens.tokens, token, Trace(mintedAt, exit))
      ensures AgentGone(old(containers.daemon.ViewOf(run)), run, runNetwork, exit, agent)
      ensures containers.journal == old(containers.journal)
        + agent.Entries(AgentNetworks(containers.daemon.deployment.isolateRuns, runNetwork))
      ensures containers.daemon.Onward(run)
      ensures exit.None? ==> !environmentBuilt || containers.Hindered(run, old(containers.daemon.refused[run]))
      ensures err <==> exit != Some(Success(0))
      ensures exit.Some? && history.Some? ==> exit.value == history.value.Outcome(token, mintedAt)
    {
      hide Plus, AgentNetworks, AgentEndpoints, HoldsToken, ViewOk;
      ghost var v := containers.daemon.ViewOf(run);
      var isolate := containers.daemon.deployment.isolateRuns;
      PlusNothing(v);
      containers.StartedExist(run);
      agent := Uncreated;
      if !environmentBuilt {
        return true, None, agent;
      }
      var id;
      id, agent := CreateAgent(containers, run, runNetwork);
      if id.Failure? {
        PlusKeepsNetwork(v, containers.daemon.ViewOf(run), agent.Left(containers.context));
        return true, None, agent;
      }
      err, exit := StartAgent(run, id.value, token, mintedAt, history, v,
                              Container(Agent, AgentEndpoints(isolate, runNetwork)));
      if exit.Some? { agent := Launched(id.value); }
    }

    /** The legacy path from the created container on: start, wait, and the cleanup deferred before both. */
    method StartAgent(run: RunId, id: ContainerId, token: TokenStore.Token, mintedAt: Option<int>,
                      history: Option<History>, ghost v: View, ghost c: Container)
      returns (err: bool, exit: Option<Result<int>>)
      requires containers.daemon.Valid() && v.started <= v.containers.Keys
      requires CM.Added(v, containers.daemon.ViewOf(run), id, c)
      requires HoldsToken(tokens.tokens, token, Trace(mintedAt, None))
      modifies containers.daemon, containers`journal, tokens
      ensures containers.daemon.Valid() && containers.daemon.ViewOf(run) == v
      ensures HoldsToken(tokens.tokens, token, Trace(mintedAt, exit))
      ensures containers.journal == old(containers.journal) + if exit.Some? then [CM.Started(id)] else []
      ensures containers.daemon.Onward(run)
      ensures exit.None? ==> containers.Hindered(run, old(containers.daemon.refused[run]))
      ensures err <==> exit != Some(Success(0))
      ensures exit.Some? && history.Some? ==> exit.value == history.value.Outcome(token, mintedAt)
    {
      err, exit := true, None;
      var begun := containers.Start(run, id);
      if begun {
        RemoveUndoesLaunch(v, containers.daemon.ViewOf(run), id, c);
        var waited := Await(run, token, mintedAt, history);
        err, exit := waited != Success(0), Some(waited);
      } else {
        CM.RemoveUndoesAdd(v, containers.daemon.ViewOf(run), id, c);
      }
      containers.StopAndRemove(run, id);
    }

    // ----- Execute -----

    /** Everything between the sidecars' launch and their deferred cleanup. */
    method RunBesideSidecars(run: RunId, env: Option<Environment>, runNetwork: Option<Network>, viaRuntime: bool,
                             inputs: Inputs, token: TokenStore.Token, history: Option<History>)
      returns (err: bool, trace: Trace, ghost runs: seq<(string, CommandRun)>, ghost agent: AgentLaunch)
      requires InOrder(run, runNetwork) && token !in tokens.tokens
      modifies containers.daemon, containers`journal, tokens
      ensures InOrder(run, runNetwork) && HoldsToken(tokens.tokens, token, trace)
      ensures AgentGone(old(containers.daemon.ViewOf(run)), run, runNetwork, trace.exit, agent)
      ensures CommandsRan(env, runs, !agent.Uncreated?)
      ensures containers.daemon.Onward(run)
      ensures trace.exit.None? ==>
        Amiss(inputs, env, history.Some?, runs) || containers.Hindered(run, old(containers.daemon.refused[run]))
      ensures Minted(trace, agent, history.Some?, inputs.tokenStore)
      ensures containers.journal == old(containers.journal) + EntriesOf(runs, CommandNetworks(runNetwork))
        + agent.Entries(AgentNetworks(containers.daemon.deployment.isolateRuns, runNetwork))
      ensures err <==> trace.exit != Some(Success(0))
      ensures trace.Waited() && history.Some? ==> trace.exit.value == history.value.Outcome(token, trace.mintedAt)
    {
      hide Plus, AgentNetworks, EntriesOf, CommandsRan, ViewOk, CommandFailed;
      PlusNothing(containers.daemon.ViewOf(run));
      agent := Uncreated;
      var done;
      done, runs := RunEnvironmentCommands(run, env, runNetwork, inputs.commandsReady);
      CommandsRanSoFar(env, runs, done);
      assert containers.journal + [] == containers.journal;
      if !done {
        return true, Trace(None, None), runs, agent;
      }
      tokens.Others(token, containers.daemon.clock);
      var mintedAt := PrepareCallback(run, history.Some?, inputs.tokenStore, token);
      if mintedAt.Failure? {
        return true, Trace(None, None), runs, agent;
      }
      var exit;
      err, exit, agent := Dispatch(run, runNetwork, viaRuntime, inputs.environmentBuilt, token, mintedAt.value,
                                   history);
      trace := Trace(mintedAt.value, exit);
    }

    lemma CommandsRanSoFar(env: Option<Environment>, runs: seq<(string, CommandRun)>, all: bool)
      requires CommandsRan(env, runs, all)
      ensures CommandsRan(env, runs, false)
    {
    }

    /** A token is minted only in callback mode by a store at work, and then always before the agent. */
    predicate Minted(trace: Trace, agent: AgentLaunch, callbackMode: bool, service: TokenService) {
      && (trace.mintedAt.Some? ==> callbackMode && service.Working?)
      && (!agent.Uncreated? && callbackMode && service.Working? ==> trace.mintedAt.Some?)
    }

    lemma JournalGoesOn(was: seq<CM.Entry>, mid: seq<CM.Entry>, now: seq<CM.Entry>, deeds: Deeds,
                        isolate: bool, runNetwork: Option<Network>)
      requires was <= mid && CM.SidecarsIn(mid) == CM.SidecarsIn(was) + deeds.launched
      requires now == mid + EntriesOf(deeds.runs, CommandNetworks(runNetwork))
        + deeds.agent.Entries(AgentNetworks(isolate, runNetwork))
      ensures Journalled(was, now, deeds, isolate, runNetwork)
    {
      NoSidecars(deeds.runs, CommandNetworks(runNetwork));
      hide CM.SidecarsIn, EntriesOf, AgentNetworks, CommandNetworks;
      CM.OtherEntriesMore(mid, deeds.AfterLaunch(isolate, runNetwork));
      assert now == mid + deeds.AfterLaunch(isolate, runNetwork);
    }

    /** Sidecars, commands and agent, and the deferred cleanup of the sidecars. */
    method RunWithSidecars(run: RunId, env: Option<Environment>, viaRuntime: bool, inputs: Inputs,
                           token: TokenStore.Token, history: Option<History>)
      returns (err: bool, trace: Trace, ghost deeds: Deeds, ghost lost: map<ContainerId, Container>)
      requires containers.daemon.Valid() && Wired() && token !in tokens.tokens
      requires ServicesOf(env) != [] || containers.daemon.deployment.isolateRuns
      modifies containers.daemon, containers`journal, tokens
      ensures containers.daemon.Valid() && HoldsToken(tokens.tokens, token, trace)
      ensures err <==> trace.exit != Some(Success(0))
      ensures trace.Waited() && history.Some? ==> trace.exit.value == history.value.Outcome(token, trace.mintedAt)
      ensures Journalled(old(containers.journal), containers.journal, deeds,
                         containers.daemon.deployment.isolateRuns, Some(RunNetwork(run)))
      ensures deeds.Ordered(env)
      ensures (trace.Waited() <==> deeds.agent.Launched?) && LeftBehind(run, lost, deeds.launched)
      ensures deeds.agent.CutOff? ==> !containers.daemon.deployment.isolateRuns
      ensures containers.daemon.Onward(run)
      ensures trace.exit.None? ==>
        Amiss(inputs, env, history.Some?, deeds.runs) || sidecars.ComesToGrief(run)
      ensures Minted(trace, deeds.agent, history.Some?, inputs.tokenStore)
      ensures Settled(run, old(containers.daemon.ViewOf(run)), containers.daemon.ViewOf(run), deeds.launched, lost,
                      deeds.agent.Left(containers.context))
    {
      hide CM.SidecarsIn, LeftBehind, Counted, Distinct, RecordsOk, PlusMade, Restored, ViewOk, CommandsRan;
      hide Plus, AgentNetworks, Settled, Journalled, EntriesOf;
      ghost var base, was := containers.daemon.ViewOf(run), containers.journal;
      sidecars.ViewIsOk(run);
      NoCommandsRan(env);
      var sc;
      ghost var launched;
      sc, lost, launched := sidecars.Launch(run, env);
      deeds, trace := Deeds(launched, [], Uncreated), Trace(None, None);
      ghost var mid, isolate := containers.journal, containers.daemon.deployment.isolateRuns;
      if sc.Failure? {
        NoEntries();
        assert mid == mid + [] + [];
        JournalGoesOn(was, mid, mid, deeds, isolate, Some(RunNetwork(run)));
        SettledWithoutAgent(run, base, containers.daemon.ViewOf(run), launched, lost);
        return true, trace, deeds, lost;
      }
      ghost var v := containers.daemon.ViewOf(run);
      ghost var runs, agent;
      err, trace, runs, agent := RunBesideSidecars(run, env, Some(RunNetwork(run)), viaRuntime, inputs, token,
                                                   history);
      deeds := Deeds(launched, runs, agent);
      JournalGoesOn(was, mid, containers.journal, deeds, isolate, Some(RunNetwork(run)));
      lost := TearDown(sc.value, base, v, agent.Left(containers.context));
    }

    lemma NoCommandsRan(env: Option<Environment>)
      ensures CommandsRan(env, [], false)
    {
    }

    /** The deferred cleanup, with what a cancelled agent create may have left in the meantime. */
    method TearDown(sc: SidecarContext, ghost base: View, ghost v: View, ghost left: map<ContainerId, Container>)
      returns (ghost lost: map<ContainerId, Container>)
      requires containers.daemon.Valid() && Wired() && ViewOk(containers.daemon.deployment, sc.run, base)
      requires sc.Valid() && sc.Tallied() && sc.Covers(v, base) && sc.networkUp && v.network
      requires Plus(v, containers.daemon.ViewOf(sc.run), left)
      modifies containers.daemon
      ensures containers.daemon.Valid() && LeftBehind(sc.run, lost, sc.names) && containers.daemon.Onward(sc.run)
      ensures Settled(sc.run, base, containers.daemon.ViewOf(sc.run), sc.names, lost, left)
    {
      hide LeftBehind, Counted, Distinct, RecordsOk, PlusMade, Restored, ViewOk, Plus, Settled;
      Rebase(v, containers.daemon.ViewOf(sc.run), base, sc.made, left);
      LostAsLaunched(sc.run, sc.made, sc.containerIDs, sc.names);
      sidecars.Cleanup(sc, base.(containers := base.containers + left));
      lost := sc.made - sc.containerIDs.Values;
      Unbase(sc.run, containers.daemon.ViewOf(sc.run), base, lost, left);
      SettledAfterwards(sc.run, base, containers.daemon.ViewOf(sc.run), sc.names, lost, left);
    }

    /**
     One whole run, among any interference.  However it ends, the run's containers,
     its network and the API's endpoint on it are as they were before, with two exact
     exceptions.  Sidecars whose name a later service reused are left behind, `lost`, one
     fewer per name than were launched, with the network they are on.  And a dual-homed agent
     whose create was cut off between its two networks is, when the context was done by the
     time that was to be undone.  With distinct names, and isolation or a context that is never
     done, there is neither.  The journal shows what was done, in order: sidecars, setup
     commands, agent.  A run misses its wait only if one of its inputs is amiss, a command
     failed, a sidecar did not get ready, the daemon refused a call of the run, or the context
     is done.  The token validates afterwards exactly when it was minted, no wait was
     reached, and it has not expired, whatever everyone else did to the store.  The error is
     nil exactly when the wait ended with exit code 0, and in callback mode the agent launched
     with this token then pushed its changes in the history that the wait belongs to.
     */
    method Execute(run: RunId, env: Option<Environment>, viaRuntime: bool, inputs: Inputs, token: TokenStore.Token,
                   history: Option<History>)
      returns (err: bool, trace: Trace, ghost deeds: Deeds, ghost lost: map<ContainerId, Container>)
      requires containers.daemon.Valid() && Wired() && token !in tokens.tokens
      modifies containers.daemon, containers`journal, tokens
      ensures containers.daemon.Valid()
      ensures TokenStore.Validated(tokens.tokens, token, containers.daemon.clock).1.Some? <==>
        trace.LeavesToken() && containers.daemon.clock <= trace.mintedAt.value + 2 * 60 * 60
      ensures trace.Waited() ==> token !in tokens.tokens
      ensures err <==> trace.exit != Some(Success(0))
      ensures trace.exit.None? ==>
        !inputs.prepared || Amiss(inputs, env, history.Some?, deeds.runs) || sidecars.ComesToGrief(run)
      ensures Minted(trace, deeds.agent, history.Some?, inputs.tokenStore)
      ensures !err && history.Some? ==> history.value.IsOf(token, trace.mintedAt) && history.value.Pushed()
      ensures
        var isolate := containers.daemon.deployment.isolateRuns;
        && Journalled(old(containers.journal), containers.journal, deeds, isolate,
                      if ServicesOf(env) != [] || isolate then Some(RunNetwork(run)) else None)
        && deeds.Ordered(env)
      ensures (trace.Waited() <==> deeds.agent.Launched?) && LeftBehind(run, lost, deeds.launched)
      ensures deeds.agent.CutOff? ==> !containers.daemon.deployment.isolateRuns && ServicesOf(env) != []
      ensures Settled(run, old(containers.daemon.ViewOf(run)), containers.daemon.ViewOf(run), deeds.launched, lost,
                      deeds.agent.Left(containers.context))
      ensures
        && Distinct(NamesOf(ServicesOf(env))) && !old(containers.daemon.ViewOf(run)).network
        && (containers.daemon.deployment.isolateRuns || containers.context.doneAt.None?) ==>
        containers.daemon.ViewOf(run) == old(containers.daemon.ViewOf(run))
    {
      hide CM.SidecarsIn, LeftBehind, Counted, Plus, Settled, ViewOk, Journalled, CommandsRan, EntriesOf, Distinct;
      trace, deeds, lost := Trace(None, None), Deeds([], [], Uncreated), map[];
      ghost var base, was := containers.daemon.ViewOf(run), containers.journal;
      sidecars.NothingLeftBehind(run);
      SettledAtOnce(run, base);
      NoCommandsRan(env);
      NoEntries();
      assert was + [] + [] == was && CM.SidecarsIn(was) + [] == CM.SidecarsIn(was);
      var isolate := containers.daemon.deployment.isolateRuns;
      JournalGoesOn(was, was, was, deeds, isolate, None);
      JournalGoesOn(was, was, was, deeds, isolate, Some(RunNetwork(run)));
      if !inputs.prepared {
        return true, trace, deeds, lost;
      }
      if |ServicesOf(env)| == 0 && !containers.daemon.deployment.isolateRuns {
        ghost var runs, agent;
        err, trace, runs, agent := RunBesideSidecars(run, env, None, viaRuntime, inputs, token, history);
        deeds := Deeds([], runs, agent);
        PlusNothing(base);
        OnlyOnePlus(base, containers.daemon.ViewOf(run), base, map[]);
        JournalGoesOn(was, was, containers.journal, deeds, isolate, None);
      } else {
        err, trace, deeds, lost := RunWithSidecars(run, env, viaRuntime, inputs, token, history);
        SettledUnchanged(run, env, base, containers.daemon.ViewOf(run), deeds.launched, lost,
                         deeds.agent.Left(containers.context));
      }
      if !err && history.Some? { ZeroMeansPushed(history.value, token, trace.mintedAt); }
      tokens.Others(token, containers.daemon.clock);
    }

    lemma OnlyOnePlus(v: View, w: View, w': View, left: map<ContainerId, Container>)
      requires Plus(v, w, left) && Plus(v, w', left)
      ensures w == w'
    {
    }

    lemma SettledUnchanged(run: RunId, env: Option<Environment>, base: View, w: View, launched: seq<string>,
                           lost: map<ContainerId, Container>, left: map<ContainerId, Container>)
      requires Settled(run, base, w, launched, lost, left) && launched <= NamesOf(ServicesOf(env))
      ensures Distinct(NamesOf(ServicesOf(env))) && left == map[] && !base.network ==> w == base
    {
      if Distinct(NamesOf(ServicesOf(env))) { DistinctPrefix(launched, NamesOf(ServicesOf(env))); }
    }

    lemma SettledAtOnce(run: RunId, base: View)
      ensures Settled(run, base, base, [], map[], map[])
    {
    }

    /** What a cancelled agent create left counts as part of what was there before, for the sidecars' cleanup. */
    lemma Rebase(v: View, w: View, base: View, made: map<ContainerId, Container>, left: map<ContainerId, Container>)
      requires PlusMade(v, base, made) && Plus(v, w, left)
      ensures PlusMade(w, base.(containers := base.containers + left), made) && left.Keys !! base.containers.Keys
      ensures w.network == v.network
    {
      SwapLast(base.containers, made, left);
    }

    lemma SwapLast(a: map<ContainerId, Container>, b: map<ContainerId, Container>, c: map<ContainerId, Container>)
      requires b.Keys !! c.Keys
      ensures (a + b) + c == (a + c) + b
    {
    }

    lemma Unbase(run: RunId, w: View, base: View, lost: map<ContainerId, Container>, left: map<ContainerId, Container>)
      requires Restored(w, base.(containers := base.containers + left), run, lost) && left.Keys !! base.containers.Keys
      ensures Restored(w, base, run, left + lost)
    {
      assert (base.containers + left) + lost == base.containers + (left + lost);
    }

    lemma SettledWithoutAgent(run: RunId, base: View, w: View, launched: seq<string>, lost: map<ContainerId, Container>)
      requires LeftBehind(run, lost, launched) && ViewOk(containers.daemon.deployment, run, base)
      requires (w == base && launched == []) || Restored(w, base, run, lost)
      ensures Settled(run, base, w, launched, lost, map[])
    {
      assert map[] + lost == lost;
      if w == base && launched == [] {
        SettledAtOnce(run, base);
        assert lost == map[];
      } else {
        SettledAfterwards(run, base, w, launched, lost, map[]);
      }
    }

    lemma SettledAfterwards(run: RunId, base: View, w: View, launched: seq<string>, lost: map<ContainerId, Container>,
                            left: map<ContainerId, Container>)
      requires LeftBehind(run, lost, launched) && ViewOk(containers.daemon.deployment, run, base)
      requires Restored(w, base, run, left + lost)
      ensures Settled(run, base, w, launched, lost, left)
    {
      if lost != map[] {
        var id :| id in lost;
        assert id in (left + lost).Keys && id in w.containers;
      } else if left != map[] {
        var id :| id in left;
        assert id in (left + lost).Keys && id in w.containers;
      } else if !base.network {
        assert left + lost == map[];
        RestoredMeansUnchanged(w, base, containers.daemon.deployment, run, left + lost);
      }
    }
  }

  /**
   From `base` to `v` exactly `left` and `lost` have come about, and the network is there
   only if something is attached to it: so nothing has changed at all if no service name
   was launched twice, no agent was left, and there was no network before; and something
   has if a name was launched twice or an agent was left.
   */
  ghost predicate Settled(run: RunId, base: View, v: View, launched: seq<string>, lost: map<ContainerId, Container>,
                          left: map<ContainerId, Container>)
  {
    && (v == base || Restored(v, base, run, left + lost))
    && (Distinct(launched) && left == map[] && !base.network ==> v == base)
    && (!Distinct(launched) || left != map[] ==> v != base)
  }
}
