/**
 The sidecar manager's garbage collection: orphan run networks first, then ephemeral
 command containers that no longer run.  It works from label listings, so the daemon
 is seen here as a flat inventory of networks and containers with their labels.
 */
module SidecarGC {
  type NetworkId = string
  type ContainerId = string

  /** An absent label reads as "". */
  datatype NetworkInfo = NetworkInfo(managed: bool, runId: string, createdAt: int)

  datatype ContainerInfo = ContainerInfo(
    managed: bool, runId: string, role: string, running: bool, createdAt: int, networks: set<NetworkId>)

  datatype Inventory = Inventory(
    networks: map<NetworkId, NetworkInfo>,
    containers: map<ContainerId, ContainerInfo>,
    apiNetworks: set<NetworkId>)

  const ROLE_ENV_COMMAND := "env_command"

  // ----- What GC is meant to remove -----

  ghost predicate Live(inv: Inventory, runId: string) {
    exists c :: c in inv.containers && inv.containers[c].managed && inv.containers[c].running
      && inv.containers[c].runId == runId
  }

  ghost predicate Orphan(inv: Inventory, n: NetworkId) {
    && n in inv.networks && inv.networks[n].managed && inv.networks[n].runId != ""
    && !Live(inv, inv.networks[n].runId)
  }

  /** No active endpoint other than an API one that GC detaches itself. */
  ghost predicate Removable(inv: Inventory, detachApi: bool, n: NetworkId) {
    !Held(inv.containers, n) && (n in inv.apiNetworks ==> detachApi)
  }

  /** Only a running container has an active endpoint: one that exited keeps no network in use. */
  predicate Held(containers: map<ContainerId, ContainerInfo>, n: NetworkId) {
    exists c :: c in containers && containers[c].running && n in containers[c].networks
  }

  ghost predicate NetworkDue(inv: Inventory, detachApi: bool, cutoff: int, n: NetworkId) {
    Orphan(inv, n) && inv.networks[n].createdAt <= cutoff && Removable(inv, detachApi, n)
  }

  ghost predicate CommandDue(inv: Inventory, cutoff: int, c: ContainerId) {
    && c in inv.containers && inv.containers[c].managed && inv.containers[c].role == ROLE_ENV_COMMAND
    && !inv.containers[c].running && inv.containers[c].createdAt <= cutoff
  }

  ghost function AfterNetworks(inv: Inventory, detachApi: bool, cutoff: int): Inventory {
    inv.(networks := map n | n in inv.networks && !NetworkDue(inv, detachApi, cutoff, n) :: inv.networks[n],
         apiNetworks := if detachApi
           then set n | n in inv.apiNetworks && !(Orphan(inv, n) && inv.networks[n].createdAt <= cutoff)
           else inv.apiNetworks)
  }

  ghost function AfterCommands(inv: Inventory, cutoff: int): Inventory {
    inv.(containers := map c | c in inv.containers && !CommandDue(inv, cutoff, c) :: inv.containers[c])
  }

  ghost function AfterGC(inv: Inventory, detachApi: bool, cutoff: int): Inventory {
    AfterCommands(AfterNetworks(inv, detachApi, cutoff), cutoff)
  }

  // ----- The collector -----

  class Collector {
    const isolateRuns: bool
    const apiContainerName: string
    var networks: map<NetworkId, NetworkInfo>
    var containers: map<ContainerId, ContainerInfo>
    var apiNetworks: set<NetworkId>

    constructor (isolateRuns: bool, apiContainerName: string, inv: Inventory)
      ensures Contents() == inv && this.isolateRuns == isolateRuns && this.apiContainerName == apiContainerName
    {
      this.isolateRuns, this.apiContainerName := isolateRuns, apiContainerName;
      networks, containers, apiNetworks := inv.networks, inv.containers, inv.apiNetworks;
    }

    ghost function Contents(): Inventory
      reads this
    {
      Inventory(networks, containers, apiNetworks)
    }

    predicate DetachesApi() { isolateRuns && apiContainerName != "" }

    /** Managed networks that carry a run id with no running managed container. */
    method ListOrphanNetworks() returns (orphans: set<NetworkId>)
      ensures forall n :: n in orphans <==> Orphan(Contents(), n)
    {
      var liveRunIds: set<string> := {};
      var todo := containers.Keys;
      while todo != {}
        invariant todo <= containers.Keys
        invariant forall rid :: rid in liveRunIds <==>
          rid != "" && exists c ::
            c in containers && c !in todo && containers[c].managed && containers[c].running
              && containers[c].runId == rid
      {
        var c :| c in todo;
        if containers[c].managed && containers[c].running && containers[c].runId != "" {
          liveRunIds := liveRunIds + {containers[c].runId};
        }
        todo := todo - {c};
      }
      orphans := {};
      var nets := networks.Keys;
      while nets != {}
        invariant nets <= networks.Keys
        invariant forall n :: n in orphans <==> n !in nets && Orphan(Contents(), n)
      {
        var n :| n in nets;
        if networks[n].managed && networks[n].runId != "" && networks[n].runId !in liveRunIds {
          orphans := orphans + {n};
        }
        nets := nets - {n};
      }
    }

    /** RemoveNetwork: refused while a running container or the API is attached. */
    method RemoveNetwork(n: NetworkId)
      modifies this`networks
      ensures networks == if !Held(containers, n) && n !in apiNetworks then old(networks) - {n} else old(networks)
    {
      if !Held(containers, n) && n !in apiNetworks {
        networks := networks - {n};
      }
    }

    method GcNetworks(cutoff: int)
      modifies this`networks, this`apiNetworks
      ensures Contents() == AfterNetworks(old(Contents()), DetachesApi(), cutoff)
    {
      ghost var before := Contents();
      var orphans := ListOrphanNetworks();
      assert forall n :: n in orphans <==> Orphan(before, n);
      var todo := orphans;
      while todo != {}
        invariant todo <= orphans
        invariant forall n :: n in networks <==>
          n in before.networks && (n in todo || !NetworkDue(before, DetachesApi(), cutoff, n))
        invariant forall n :: n in networks ==> networks[n] == before.networks[n]
        invariant forall n :: n in apiNetworks <==>
          n in before.apiNetworks && !(DetachesApi() && n in orphans && n !in todo
            && before.networks[n].createdAt <= cutoff)
      {
        var n :| n in todo;
        if networks[n].createdAt <= cutoff {
          if DetachesApi() {
            apiNetworks := apiNetworks - {n};
          }
          RemoveNetwork(n);
        }
        assert n in networks <==> !NetworkDue(before, DetachesApi(), cutoff, n);
        todo := todo - {n};
      }
    }

    method GcCommandContainers(cutoff: int)
      modifies this`containers
      ensures Contents() == AfterCommands(old(Contents()), cutoff)
      ensures forall c :: c in old(containers) ==>
        var info := old(containers)[c];
        c !in containers <==> info.managed && info.role == "env_command" && !info.running && info.createdAt <= cutoff
    {
      ghost var before := Contents();
      assert before.containers == old(containers);
      var todo := containers.Keys;
      while todo != {}
        invariant todo <= containers.Keys
        invariant forall c :: c in containers <==>
          c in before.containers && (c in todo || !CommandDue(before, cutoff, c))
        invariant forall c :: c in containers ==> containers[c] == before.containers[c]
      {
        var c :| c in todo;
        var info := containers[c];
        if info.managed && info.role == ROLE_ENV_COMMAND && !info.running && info.createdAt <= cutoff {
          containers := containers - {c};
        }
        todo := todo - {c};
      }
    }

    /**
     Exactly the due networks and the due command containers are gone; nothing else is
     touched but the API's endpoints on old orphan networks.
     */
    method GC(now: int, olderThan: int)
      modifies this
      ensures Contents() == AfterGC(old(Contents()), isolateRuns && apiContainerName != "", now - olderThan)
    {
      GcNetworks(now - olderThan);
      GcCommandContainers(now - olderThan);
    }
  }

  // ----- What a pass achieves -----

  /** Run isolation as GC's listings show it: what runs on a managed run network is managed and carries its run id. */
  ghost predicate RunsKeepToThemselves(inv: Inventory) {
    forall c, n ::
      c in inv.containers && inv.containers[c].running && n in inv.containers[c].networks
      && n in inv.networks && inv.networks[n].managed && inv.networks[n].runId != "" ==>
        inv.containers[c].managed && inv.containers[c].runId == inv.networks[n].runId
  }

  /**
   Exactness: under run isolation the networks gone after GC are exactly those that are
   managed, carry a run id of which no managed container runs, are no newer than the
   cutoff, and have no API endpoint that GC is not configured to detach.  Exited
   containers of the run make no difference.
   */
  lemma RemovesExactlyTheOldOrphans(inv: Inventory, detachApi: bool, cutoff: int, n: NetworkId)
    requires RunsKeepToThemselves(inv) && n in inv.networks
    ensures
      var info := inv.networks[n];
      n !in AfterGC(inv, detachApi, cutoff).networks <==>
        && info.managed && info.runId != "" && info.createdAt <= cutoff && (n in inv.apiNetworks ==> detachApi)
        && forall c :: c in inv.containers && inv.containers[c].managed && inv.containers[c].running ==>
             inv.containers[c].runId != info.runId
  {
    var info := inv.networks[n];
    if Held(inv.containers, n) && info.managed && info.runId != "" {
      var c :| c in inv.containers && inv.containers[c].running && n in inv.containers[c].networks;
      assert Live(inv, info.runId);
    }
  }

  /** The API leaves exactly the old orphans, and none if GC is not configured to detach it. */
  lemma ApiLeavesOldOrphansOnly(inv: Inventory, detachApi: bool, cutoff: int, n: NetworkId)
    requires n in inv.apiNetworks
    ensures
      n !in AfterGC(inv, detachApi, cutoff).apiNetworks <==>
        && detachApi && n in inv.networks && inv.networks[n].managed && inv.networks[n].runId != ""
        && inv.networks[n].createdAt <= cutoff
        && forall c :: c in inv.containers && inv.containers[c].managed && inv.containers[c].running ==>
             inv.containers[c].runId != inv.networks[n].runId
  {
    if n in inv.networks && Live(inv, inv.networks[n].runId) {
      var c :| c in inv.containers && inv.containers[c].managed && inv.containers[c].running
        && inv.containers[c].runId == inv.networks[n].runId;
    }
  }

  /** GC removes no running container, so it changes no run's liveness and frees no network. */
  lemma LiveIsKept(inv: Inventory, detachApi: bool, cutoff: int)
    ensures forall runId :: Live(AfterGC(inv, detachApi, cutoff), runId) <==> Live(inv, runId)
    ensures forall n :: Held(AfterGC(inv, detachApi, cutoff).containers, n) <==> Held(inv.containers, n)
  {
    var t := AfterGC(inv, detachApi, cutoff);
    forall runId | Live(inv, runId) ensures Live(t, runId) {
      var c :| c in inv.containers && inv.containers[c].managed && inv.containers[c].running
        && inv.containers[c].runId == runId;
      assert c in t.containers;
    }
    forall n | Held(inv.containers, n) ensures Held(t.containers, n) {
      var c :| c in inv.containers && inv.containers[c].running && n in inv.containers[c].networks;
      assert c in t.containers;
    }
  }

  lemma NothingStaysDue(inv: Inventory, detachApi: bool, cutoff: int, n: NetworkId)
    ensures !NetworkDue(AfterGC(inv, detachApi, cutoff), detachApi, cutoff, n)
  {
    LiveIsKept(inv, detachApi, cutoff);
    hide Live, Held;
    var t := AfterGC(inv, detachApi, cutoff);
    assert NetworkDue(t, detachApi, cutoff, n) ==> NetworkDue(inv, detachApi, cutoff, n);
  }

  /** One pass settles: a second one with the same cutoff changes nothing, whatever the inventory. */
  lemma OnePassSettles(inv: Inventory, detachApi: bool, cutoff: int)
    ensures AfterGC(AfterGC(inv, detachApi, cutoff), detachApi, cutoff) == AfterGC(inv, detachApi, cutoff)
  {
    var once := AfterGC(inv, detachApi, cutoff);
    var twice := AfterGC(once, detachApi, cutoff);
    LiveIsKept(inv, detachApi, cutoff);
    forall n ensures !NetworkDue(once, detachApi, cutoff, n) {
      NothingStaysDue(inv, detachApi, cutoff, n);
    }
    assert twice.networks == once.networks;
    assert forall n :: Orphan(once, n) ==> Orphan(inv, n) && once.networks[n] == inv.networks[n];
    assert twice.apiNetworks == once.apiNetworks;
    assert twice.containers == once.containers;
  }
}
