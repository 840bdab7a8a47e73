/** The Docker substrate adapter: one agent container launched and stopped through the ContainerManager. */
module DockerRuntime {
  import opened Options
  import opened DockerDaemon
  import CM = Containers

  /**
   Where the agent lives: its run network alone under isolation, else the shared network plus the run
   network if there is one.
   */
  ghost function AgentEndpoints(isolate: bool, runNetwork: Option<Network>): map<Network, string> {
    if runNetwork.None? then map[Shared := ""]
    else if isolate then map[runNetwork.value := ""]
    else map[Shared := "", runNetwork.value := ""]
  }

  /** The same networks in the order in which they are attached. */
  function AgentNetworks(isolate: bool, runNetwork: Option<Network>): seq<Network> {
    if runNetwork.None? then [Shared] else if isolate then [runNetwork.value] else [Shared, runNetwork.value]
  }

  /** `w` is `v` with one more container that has been started. */
  ghost predicate AddedAndStarted(v: View, w: View, id: ContainerId, c: Container) {
    && id !in v.containers
    && w == v.(containers := v.containers[id := c], started := v.started + {id})
  }

  /** How far the agent's launch got. */
  datatype AgentLaunch =
    | Uncreated
    | CutOff(id: ContainerId, at: int)   // the connect to the second network failed; its undoing was tried at `at`
    | Unstarted(id: ContainerId)
    | Launched(id: ContainerId)
  {
    /** What the journal shows of it. */
    function Entries(networks: seq<Network>): seq<CM.Entry> {
      match this
      case Uncreated => []
      case CutOff(id, at) => [CM.Created(id, Agent, networks), CM.UndoTried(id, at)]
      case Unstarted(id) => [CM.Created(id, Agent, networks)]
      case Launched(id) => [CM.Created(id, Agent, networks), CM.Started(id)]
    }

    /**
     What stays behind of it for good: the container of a create whose connect to the run network failed and
     whose undoing came too late for the context.  It is on the shared network alone.
     */
    function Left(context: CM.Context): map<ContainerId, Container> {
      if CutOff? && context.Done(at) then map[id := Container(Agent, map[Shared := ""])] else map[]
    }

    /** Only a dual-homed agent's create connects to a second network. */
    predicate Fits(isolate: bool, runNetwork: Option<Network>) { CutOff? ==> !isolate && runNetwork.Some? }
  }

  /** `w` is `v` and exactly the containers of `left`, which are new. */
  ghost predicate Plus(v: View, w: View, left: map<ContainerId, Container>) {
    left.Keys !! v.containers.Keys && w == v.(containers := v.containers + left)
  }

  lemma PlusKeepsNetwork(v: View, w: View, left: map<ContainerId, Container>)
    requires Plus(v, w, left)
    ensures w.network == v.network
  {
  }

  lemma PlusNothing(v: View)
    ensures Plus(v, v, map[])
  {
    assert v.containers + map[] == v.containers;
  }

  lemma RemoveUndoesLaunch(v: View, w: View, id: ContainerId, c: Container)
    requires AddedAndStarted(v, w, id, c) && v.started <= v.containers.Keys
    ensures WithoutContainers(w, {id}) == v
  {
    assert v.containers[id := c] - {id} == v.containers;
  }

  function AgentOpts(isolate: bool, run: RunId, runNetwork: Option<Network>): CM.Opts {
    if isolate && runNetwork.Some? then CM.Opts(run, Agent, runNetwork, [], map[])
    else if runNetwork.Some? then CM.Opts(run, Agent, Some(Shared), [runNetwork.value], map[])
    else CM.Opts(run, Agent, Some(Shared), [], map[])
  }

  /** The run network, when given, is the run's own; under isolation there always is one. */
  predicate OwnNetwork(isolate: bool, run: RunId, runNetwork: Option<Network>) {
    if runNetwork.Some? then runNetwork.value == RunNetwork(run) else !isolate
  }

  lemma AgentOptsEndpoints(isolate: bool, run: RunId, runNetwork: Option<Network>)
    requires OwnNetwork(isolate, run, runNetwork)
    ensures
      var opts := AgentOpts(isolate, run, runNetwork);
      && opts.Networks() == AgentNetworks(isolate, runNetwork)
      && opts.Permitted(isolate) && opts.Endpoints(|opts.extra|) == AgentEndpoints(isolate, runNetwork)
      && (runNetwork.None? ==> AgentEndpoints(isolate, runNetwork) == map[Shared := ""])
      && (runNetwork.Some? ==>
            AgentEndpoints(isolate, runNetwork)
            == if isolate then map[RunNetwork(run) := ""] else map[Shared := "", RunNetwork(run) := ""])
  {
    var opts := AgentOpts(isolate, run, runNetwork);
    assert opts.Endpoints(0) == if isolate && runNetwork.Some? then map[runNetwork.value := ""] else map[Shared := ""];
  }

  /** The agent's part in one create. */
  function LaunchOf(how: CM.Creation): AgentLaunch {
    match how
    case Refused => Uncreated
    case CutOff(id, _, at) => CutOff(id, at)
    case Made(id) => Unstarted(id)
  }

  lemma CreateLeaves(isolate: bool, run: RunId, runNetwork: Option<Network>, v: View, how: CM.Creation,
                     context: CM.Context)
    requires how.CutOff? ==> how.connected < |AgentOpts(isolate, run, runNetwork).extra|
    requires !how.Refused? ==> how.id !in v.containers
    ensures LaunchOf(how).Fits(isolate, runNetwork)
    ensures !how.Made? ==>
      Plus(v, CM.AfterCreate(v, AgentOpts(isolate, run, runNetwork), how, context), LaunchOf(how).Left(context))
  {
    PlusNothing(v);
    if how.CutOff? && context.Done(how.at) {
      var c := Container(Agent, map[Shared := ""]);
      assert AgentOpts(isolate, run, runNetwork).Endpoints(0) == c.endpoints;
      assert v.containers + map[how.id := c] == v.containers[how.id := c];
    }
  }

  /**
   The exception is real: a dual-homed agent whose first connect fails at time 5 leaves its container on the
   shared network when the context is done by then, and leaves nothing when it is done later or never.
   */
  lemma CancelledCreateLeavesTheAgent(doneAt: Option<int>)
    ensures
      var v, opts := EMPTY_VIEW.(network := true), AgentOpts(false, "run", Some(RunNetwork("run")));
      CM.AfterCreate(v, opts, CM.CutOff(0, 0, 5), CM.Context(doneAt)).containers
      == if doneAt.Some? && doneAt.value <= 5 then map[0 := Container(Agent, map[Shared := ""])] else map[]
  {
    CreateLeaves(false, "run", Some(RunNetwork("run")), EMPTY_VIEW.(network := true), CM.CutOff(0, 0, 5),
                 CM.Context(doneAt));
  }

  /** The create both dispatch paths make for the agent; what a failed one leaves is in `agent`. */
  method CreateAgent(containers: CM.ContainerManager, run: RunId, runNetwork: Option<Network>)
    returns (r: Result<ContainerId>, ghost agent: AgentLaunch)
    requires containers.daemon.Valid() && OwnNetwork(containers.daemon.deployment.isolateRuns, run, runNetwork)
    modifies containers.daemon, containers`journal
    ensures containers.daemon.Valid()
    ensures containers.journal == old(containers.journal)
      + agent.Entries(AgentNetworks(containers.daemon.deployment.isolateRuns, runNetwork))
    ensures !agent.Launched? && agent.Fits(containers.daemon.deployment.isolateRuns, runNetwork)
    ensures r == if agent.Unstarted? then Success(agent.id) else Failure
    ensures containers.daemon.Onward(run)
    ensures r.Failure? ==>
      || containers.Hindered(run, old(containers.daemon.refused[run]))
      || (runNetwork.Some? && !old(containers.daemon.ViewOf(run)).network)
    ensures r.Failure? ==>
      Plus(old(containers.daemon.ViewOf(run)), containers.daemon.ViewOf(run), agent.Left(containers.context))
    ensures r.Success? ==>
      CM.Added(old(containers.daemon.ViewOf(run)), containers.daemon.ViewOf(run), r.value,
               Container(Agent, AgentEndpoints(containers.daemon.deployment.isolateRuns, runNetwork)))
  {
    var isolate := containers.daemon.deployment.isolateRuns;
    ghost var v := containers.daemon.ViewOf(run);
    AgentOptsEndpoints(isolate, run, runNetwork);
    ghost var how;
    r, how := containers.Create(AgentOpts(isolate, run, runNetwork));
    hide Plus, AgentEndpoints, AgentNetworks;
    agent := LaunchOf(how);
    CreateLeaves(isolate, run, runNetwork, v, how, containers.context);
  }

  class Runtime {
    const containers: CM.ContainerManager

    constructor (containers: CM.ContainerManager)
      ensures this.containers == containers
    {
      this.containers := containers;
    }

    /**
     A container that was created but would not start is torn down before the error is
     returned, on a context of its own.  So a failed launch leaves nothing, unless the create
     was cut off between two networks and its context was done when that was to be undone.
     */
    method Launch(run: RunId, runNetwork: Option<Network>)
      returns (handle: Result<ContainerId>, ghost agent: AgentLaunch)
      requires containers.daemon.Valid() && OwnNetwork(containers.daemon.deployment.isolateRuns, run, runNetwork)
      modifies containers.daemon, containers`journal
      ensures containers.daemon.Valid()
      ensures containers.journal == old(containers.journal)
        + agent.Entries(AgentNetworks(containers.daemon.deployment.isolateRuns, runNetwork))
      ensures handle == if agent.Launched? then Success(agent.id) else Failure
      ensures containers.daemon.Onward(run)
      ensures handle.Failure? ==>
        || containers.Hindered(run, old(containers.daemon.refused[run]))
        || (runNetwork.Some? && !old(containers.daemon.ViewOf(run)).network)
      ensures agent.Fits(containers.daemon.deployment.isolateRuns, runNetwork)
      ensures handle.Failure? ==>
        Plus(old(containers.daemon.ViewOf(run)), containers.daemon.ViewOf(run), agent.Left(containers.context))
      ensures handle.Success? ==>
        AddedAndStarted(old(containers.daemon.ViewOf(run)), containers.daemon.ViewOf(run), handle.value,
                        Container(Agent, AgentEndpoints(containers.daemon.deployment.isolateRuns, runNetwork)))
    {
      hide Plus, AgentEndpoints, AgentNetworks;
      var isolate := containers.daemon.deployment.isolateRuns;
      ghost var v := containers.daemon.ViewOf(run);
      PlusNothing(v);
      containers.StartedExist(run);
      handle, agent := CreateAgent(containers, run, runNetwork);
      if handle.Failure? {
        return;
      }
      var ok := containers.Start(run, handle.value);
      if !ok {
        CM.RemoveUndoesAdd(v, containers.daemon.ViewOf(run), handle.value,
                           Container(Agent, AgentEndpoints(isolate, runNetwork)));
        containers.StopAndRemove(run, handle.value);
        return Failure, agent;
      }
      agent := Launched(handle.value);
    }

    method Stop(run: RunId, handle: ContainerId)
      requires containers.daemon.Valid()
      modifies containers.daemon
      ensures containers.daemon.Valid()
      ensures containers.daemon.ViewOf(run) == WithoutContainers(old(containers.daemon.ViewOf(run)), {handle})
      ensures containers.daemon.Onward(run)
    {
      containers.StopAndRemove(run, handle);
    }
  }
}
