/**
 The Docker daemon as the backend sees it: containers with their endpoints, per-run
 networks, and the platform API's own endpoints on them.  Every call is one atomic
 step.  Calls that build something may fail at any time; a teardown call fails only
 for a reason of the daemon's own: the container is not there, or the network still
 has endpoints.

 The daemon's state is kept by run label.  `Valid` is the run isolation invariant, and
 `Interfere` lets every other run, and the processes inside the containers, do any
 number of daemon steps in between.
 */
module DockerDaemon {
  import opened Options

  type RunId = string
  type ContainerId = nat

  datatype Result<+T> = Success(value: T) | Failure

  /** The shared agent network always exists; a run's network is named after its full run id. */
  datatype Network = Shared | RunNetwork(run: RunId)

  datatype Role = Agent | Sidecar(service: string) | EnvCommand(key: string)

  /** `endpoints` maps each attached network to the DNS alias on it, "" for none. */
  datatype Container = Container(role: Role, endpoints: map<Network, string>)

  datatype Health = Healthy | Unhealthy | Starting | NoHealthcheck | Running | NotRunning

  /** The deployment's isolation settings, shared by the sidecar manager, the runtime and the action. */
  datatype Deployment = Deployment(isolateRuns: bool, apiContainerName: string) {
    predicate AttachesApi() { isolateRuns && apiContainerName != "" }
  }

  /**
   Everything that carries one run's label: its containers, which of them have been
   started, whether its network exists, and whether the API has an endpoint there.
   */
  datatype View = View(containers: map<ContainerId, Container>, started: set<ContainerId>, network: bool, api: bool)

  const EMPTY_VIEW := View(map[], {}, false, false)

  predicate Attached(containers: map<ContainerId, Container>, network: Network) {
    exists id :: id in containers && network in containers[id].endpoints
  }

  /**
   Isolation of one container: the only run network it may be on is its own run's, and
   with isolation on that network is its only one.
   */
  ghost predicate Homed(isolate: bool, run: RunId, endpoints: map<Network, string>) {
    && (forall n :: n in endpoints && n.RunNetwork? ==> n.run == run)
    && (isolate ==> endpoints.Keys == {RunNetwork(run)})
  }

  /**
   A run's network is up while anything is attached to it, and the API only ever attaches when the
   deployment says so.
   */
  ghost predicate ViewOk(d: Deployment, run: RunId, v: View) {
    && v.started <= v.containers.Keys
    && (forall id :: id in v.containers ==> Homed(d.isolateRuns, run, v.containers[id].endpoints))
    && (Attached(v.containers, RunNetwork(run)) ==> v.network)
    && (v.api ==> v.network && d.AttachesApi())
  }

  class Daemon {
    const deployment: Deployment
    var runs: map<RunId, View>
    var nextId: ContainerId
    var clock: int
    ghost var refused: multiset<RunId>   // whose calls the daemon has turned down for reasons of its own

    ghost function ViewOf(run: RunId): View
      reads this
    {
      if run in runs then runs[run] else EMPTY_VIEW
    }

    ghost predicate Valid()
      reads this
    {
      && (forall run :: run in runs ==> ViewOk(deployment, run, runs[run]))
      && (forall run, id :: run in runs && id in runs[run].containers ==> id < nextId)
    }

    constructor (deployment: Deployment)
      ensures Valid() && this.deployment == deployment && runs == map[]
    {
      this.deployment := deployment;
      runs, nextId, clock, refused := map[], 0, 0, multiset{};
    }

    function Get(run: RunId): View
      reads this
      ensures Get(run) == ViewOf(run)
    {
      if run in runs then runs[run] else EMPTY_VIEW
    }

    /** The clock does not go back, and what was refused to the run stays on record. */
    twostate predicate Onward(run: RunId)
      reads this
    {
      clock >= old(clock) && refused[run] >= old(refused[run])
    }

    /** Whether the daemon turns down a call that nothing else stands in the way of. */
    method Refuses(run: RunId) returns (refuses: bool)
      modifies this`refused
      ensures refused == if refuses then old(refused) + multiset{run} else old(refused)
    {
      refuses := *;
      if refuses { refused := refused + multiset{run}; }
    }

    /** One run's part of the daemon changes. */
    method Put(run: RunId, v: View)
      requires Valid() && ViewOk(deployment, run, v) && forall id :: id in v.containers ==> id < nextId
      modifies this`runs
      ensures Valid() && ViewOf(run) == v && forall q :: q != run ==> ViewOf(q) == old(ViewOf(q))
    {
      runs := runs[run := v];
    }

    method ContainerCreate(run: RunId, role: Role, primary: Option<Network>, alias: string)
      returns (r: Result<ContainerId>)
      requires Valid()
      requires primary.Some? && primary.value.RunNetwork? ==> primary.value.run == run
      requires deployment.isolateRuns ==> primary == Some(RunNetwork(run))
      modifies this`runs, this`nextId, this`refused
      ensures Valid() && forall q :: q != run ==> ViewOf(q) == old(ViewOf(q))
      ensures r.Failure? ==> ViewOf(run) == old(ViewOf(run))
      ensures
        var missing := primary == Some(RunNetwork(run)) && !old(ViewOf(run)).network;
        refused == if r.Failure? && !missing then old(refused) + multiset{run} else old(refused)
      ensures r.Success? ==>
        && r.value !in old(ViewOf(run)).containers
        && ViewOf(run) == old(ViewOf(run)).(containers := old(ViewOf(run)).containers[r.value :=
             Container(role, if primary.Some? then map[primary.value := alias] else map[])])
    {
      var v := Get(run);
      if primary == Some(RunNetwork(run)) && !v.network {
        return Failure;
      }
      var refuses := Refuses(run);
      if refuses {
        return Failure;
      }
      var id := nextId;
      nextId := id + 1;
      Put(run, v.(containers := v.containers[id := Container(role, if primary.Some? then map[primary.value := alias]
        else map[])]));
      r := Success(id);
    }

    method ContainerStart(run: RunId, id: ContainerId) returns (ok: bool)
      requires Valid()
      modifies this`runs, this`refused
      ensures Valid() && forall q :: q != run ==> ViewOf(q) == old(ViewOf(q))
      ensures ok ==> id in old(ViewOf(run)).containers
      ensures refused
           == if !ok && id in old(ViewOf(run)).containers then old(refused) + multiset{run} else old(refused)
      ensures ViewOf(run) == old(ViewOf(run)).(started := if ok then old(ViewOf(run)).started + {id}
        else old(ViewOf(run)).started)
    {
      var v := Get(run);
      ok := false;
      if id in v.containers {
        var refuses := Refuses(run);
        ok := !refuses;
      }
      if ok {
        runs := runs[run := v.(started := v.started + {id})];
      }
    }

    /** A forced remove, endpoints included; it fails only when the container is not there. */
    method ContainerRemove(run: RunId, id: ContainerId) returns (ok: bool)
      requires Valid()
      modifies this`runs
      ensures Valid() && forall q :: q != run ==> ViewOf(q) == old(ViewOf(q))
      ensures ok <==> id in old(ViewOf(run)).containers
      ensures ViewOf(run) == WithoutContainers(old(ViewOf(run)), {id})
    {
      var v := Get(run);
      ok := id in v.containers;
      runs := runs[run := WithoutContainers(v, {id})];
    }

    method NetworkCreate(run: RunId) returns (ok: bool)
      requires Valid() && !ViewOf(run).network
      modifies this`runs, this`refused
      ensures refused == if ok then old(refused) else old(refused) + multiset{run}
      ensures Valid() && forall q :: q != run ==> ViewOf(q) == old(ViewOf(q))
      ensures ViewOf(run) == old(ViewOf(run)).(network := ok)
    {
      var refuses := Refuses(run);
      ok := !refuses;
      if ok {
        runs := runs[run := Get(run).(network := true)];
      }
    }

    /** Some container, of whatever run, is attached to the network. */
    predicate InUse(network: Network)
      reads this
    {
      exists run :: run in runs && Attached(runs[run].containers, network)
    }

    /** Fails exactly when an endpoint, of any container or of the API, is still attached; absent is success. */
    method NetworkRemove(run: RunId) returns (ok: bool)
      requires Valid()
      modifies this`runs
      ensures Valid() && forall q :: q != run ==> ViewOf(q) == old(ViewOf(q))
      ensures
        var v := old(ViewOf(run));
        && (ok <==> !Attached(v.containers, RunNetwork(run)) && !v.api)
        && ViewOf(run) == v.(network := v.network && !ok)
    {
      OnlyOwnContainersAttached(run);
      var v := Get(run);
      if !v.network {
        return true;
      }
      ok := !InUse(RunNetwork(run)) && !v.api;
      if ok {
        runs := runs[run := v.(network := false)];
      }
    }

    /** What isolation gives the teardown: a run network is in use only by its own run's containers. */
    lemma OnlyOwnContainersAttached(run: RunId)
      requires Valid()
      ensures InUse(RunNetwork(run)) <==> Attached(ViewOf(run).containers, RunNetwork(run))
    {
      forall q | q in runs && Attached(runs[q].containers, RunNetwork(run))
        ensures q == run
      {
        var id :| id in runs[q].containers && RunNetwork(run) in runs[q].containers[id].endpoints;
        assert Homed(deployment.isolateRuns, q, runs[q].containers[id].endpoints);
      }
    }

    method NetworkConnect(run: RunId, network: Network, id: ContainerId, alias: string, refuses: bool)
      returns (ok: bool)
      requires Valid() && !deployment.isolateRuns && (network.RunNetwork? ==> network.run == run)
      modifies this`runs, this`refused
      ensures refused == if refuses then old(refused) + multiset{run} else old(refused)
      ensures Valid() && forall q :: q != run ==> ViewOf(q) == old(ViewOf(q))
      ensures ok <==>
        && !refuses && id in old(ViewOf(run)).containers
        && (network.RunNetwork? ==> old(ViewOf(run)).network)
      ensures !ok ==> ViewOf(run) == old(ViewOf(run))
      ensures ok ==>
        var c := old(ViewOf(run)).containers[id];
        ViewOf(run) == old(ViewOf(run)).(containers := old(ViewOf(run)).containers[id :=
             c.(endpoints := if network in c.endpoints then c.endpoints else c.endpoints[network := alias])])
    {
      var v := Get(run);
      if refuses { refused := refused + multiset{run}; }
      if refuses || id !in v.containers || (network.RunNetwork? && !v.network) {
        return false;
      }
      var c := v.containers[id];
      var c' := c.(endpoints := if network in c.endpoints then c.endpoints else c.endpoints[network := alias]);
      assert v.containers.Keys == v.containers[id := c'].Keys;
      Put(run, v.(containers := v.containers[id := c']));
      return true;
    }

    method NetworkConnectApi(run: RunId) returns (ok: bool)
      requires Valid() && deployment.AttachesApi()
      modifies this`runs, this`refused
      ensures refused == if !ok && old(ViewOf(run)).network then old(refused) + multiset{run} else old(refused)
      ensures Valid() && forall q :: q != run ==> ViewOf(q) == old(ViewOf(q))
      ensures ViewOf(run) == old(ViewOf(run)).(api := ok || old(ViewOf(run)).api)
    {
      var v := Get(run);
      ok := false;
      if v.network {
        var refuses := Refuses(run);
        ok := !refuses;
      }
      if ok {
        runs := runs[run := v.(api := true)];
      }
    }

    method NetworkDisconnectApi(run: RunId)
      requires Valid()
      modifies this`runs
      ensures Valid() && forall q :: q != run ==> ViewOf(q) == old(ViewOf(q))
      ensures ViewOf(run) == old(ViewOf(run)).(api := false)
    {
      runs := runs[run := Get(run).(api := false)];
    }

    method TimePasses(d: nat)
      requires Valid()
      modifies this`clock
      ensures Valid() && clock == old(clock) + d
    {
      clock := clock + d;
    }

    /** Any one daemon call of another run, or the passing of time. */
    method OthersStep(other: RunId, id: ContainerId, elapsed: nat)
      requires Valid()
      modifies this
      ensures Valid() && clock >= old(clock)
      ensures forall q :: q != other ==> ViewOf(q) == old(ViewOf(q)) && refused[q] == old(refused[q])
    {
      if * {
        var home := Some(RunNetwork(other));
        if !deployment.isolateRuns {
          if * { home := Some(Shared); } else if * { home := None; }
        }
        var _ := ContainerCreate(other, Agent, home, "");
      } else if * {
        var _ := ContainerStart(other, id);
      } else if * {
        var _ := ContainerRemove(other, id);
      } else if * {
        var refuses: bool := *;
        if !deployment.isolateRuns { var _ := NetworkConnect(other, RunNetwork(other), id, "", refuses); }
      } else if * {
        if !Get(other).network { var _ := NetworkCreate(other); }
      } else if * {
        var _ := NetworkRemove(other);
      } else if * {
        if deployment.AttachesApi() { var _ := NetworkConnectApi(other); }
      } else if * {
        NetworkDisconnectApi(other);
      } else {
        TimePasses(elapsed);
      }
    }

    /** Any number of steps of the environment: `run`'s own view is left alone and isolation holds throughout. */
    method Interfere(run: RunId)
      requires Valid()
      modifies this
      ensures Valid() && ViewOf(run) == old(ViewOf(run)) && clock >= old(clock) && refused[run] == old(refused[run])
    {
      var steps: nat := *;
      while steps > 0
        invariant Valid() && ViewOf(run) == old(ViewOf(run)) && clock >= old(clock)
        invariant refused[run] == old(refused[run])
      {
        var other: RunId := *;
        var id: ContainerId := *;
        var elapsed: nat := *;
        if other != run {
          OthersStep(other, id, elapsed);
        }
        steps := steps - 1;
      }
    }
  }

  /** `v` with the given containers gone. */
  function WithoutContainers(v: View, ids: set<ContainerId>): View {
    v.(containers := v.containers - ids, started := v.started - ids)
  }
}
