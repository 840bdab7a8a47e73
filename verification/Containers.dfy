/**
 The ContainerManager: thin calls onto the daemon, except where it adds its own
 logic - an all-or-nothing Create over several networks, an idempotent network
 creation, and idempotent connects, disconnects and removals.  The calls that build
 or watch something run on the caller's context and fail once it is done.

 Other runs may move before every daemon call; each contract speaks of the one run's
 view only.
 */
module Containers {
  import opened Options
  import opened DockerDaemon

  /** The part of model.ContainerOpts that the daemon's state depends on. */
  datatype Opts = Opts(
    run: RunId,
    role: Role,
    primary: Option<Network>,
    extra: seq<Network>,
    aliases: map<Network, string>)
  {
    function AliasOn(n: Network): string { if n in aliases then aliases[n] else "" }

    /** The endpoints once the primary network and the first `k` extra ones are attached. */
    ghost function Endpoints(k: nat): map<Network, string>
      requires k <= |extra|
    {
      if k > 0 then
        var before := Endpoints(k - 1);
        if extra[k - 1] in before then before else before[extra[k - 1] := AliasOn(extra[k - 1])]
      else if primary.Some? then map[primary.value := AliasOn(primary.value)]
      else map[]
    }

    /** What isolation asks of the caller. */
    function Networks(): seq<Network> { (if primary.Some? then [primary.value] else []) + extra }

    /** The run's own network is one of those to attach. */
    ghost predicate NeedsRunNetwork() {
      primary == Some(RunNetwork(run)) || RunNetwork(run) in extra
    }

    ghost predicate Permitted(isolate: bool) {
      && (isolate ==> primary == Some(RunNetwork(run)) && extra == [])
      && (primary.Some? && primary.value.RunNetwork? ==> primary.value.run == run)
      && (forall i :: 0 <= i < |extra| && extra[i].RunNetwork? ==> extra[i].run == run)
    }
  }

  /** `w` is `v` with one more container, `id`, not started. */
  ghost predicate Added(v: View, w: View, id: ContainerId, c: Container) {
    id !in v.containers && w == v.(containers := v.containers[id := c])
  }

  /**
   One answer of the daemon, one completed sleep, or one attempt to undo a create that failed at an
   extra connect; `at` and `until` are readings of the clock.
   */
  datatype Entry =
    | Created(id: ContainerId, role: Role, networks: seq<Network>)   // and to which networks it is to be attached
    | UndoTried(id: ContainerId, at: int)
    | Started(id: ContainerId)
    | Waited(id: ContainerId, exit: Result<int>)
    | Inspected(id: ContainerId, health: Result<Health>, at: int)
    | Slept(until: int)

  /** The caller's context: calls on it reach the daemon only before it is done, if it ever is. */
  datatype Context = Context(doneAt: Option<int>) {
    predicate Done(now: int) { doneAt.Some? && now >= doneAt.value }
  }

  /** How one create went; `connected` extra networks were attached before the connect that failed. */
  datatype Creation =
    | Refused
    | CutOff(id: ContainerId, connected: nat, at: int)   // a connect failed; its undoing was tried at `at`
    | Made(id: ContainerId)
  {
    predicate StaysBehind(context: Context) { CutOff? && context.Done(at) }

    /** What the journal shows of it. */
    function Entries(role: Role, networks: seq<Network>): seq<Entry> {
      match this
      case Refused => []
      case CutOff(id, _, at) => [Created(id, role, networks), UndoTried(id, at)]
      case Made(id) => [Created(id, role, networks)]
    }
  }

  /** The services whose sidecars were created, in order. */
  function SidecarsIn(journal: seq<Entry>): seq<string> {
    if journal == [] then []
    else
      var n := |journal| - 1;
      SidecarsIn(journal[..n])
      + if journal[n].Created? && journal[n].role.Sidecar? then [journal[n].role.service] else []
  }

  function InspectionsIn(journal: seq<Entry>): nat {
    if journal == [] then 0
    else
      var n := |journal| - 1;
      InspectionsIn(journal[..n]) + if journal[n].Inspected? then 1 else 0
  }

  lemma OneEntryMore(journal: seq<Entry>, e: Entry)
    ensures InspectionsIn(journal + [e]) == InspectionsIn(journal) + if e.Inspected? then 1 else 0
    ensures SidecarsIn(journal + [e])
         == SidecarsIn(journal) + if e.Created? && e.role.Sidecar? then [e.role.service] else []
  {
    assert (journal + [e])[..|journal|] == journal;
  }

  lemma {:induction false} OtherEntriesMore(journal: seq<Entry>, more: seq<Entry>)
    requires forall e :: e in more ==> !(e.Created? && e.role.Sidecar?)
    ensures SidecarsIn(journal + more) == SidecarsIn(journal)
  {
    hide SidecarsIn;
    if more == [] {
      assert journal + more == journal;
    } else {
      var n := |more| - 1;
      OtherEntriesMore(journal, more[..n]);
      OneEntryMore(journal + more[..n], more[n]);
      assert journal + more == (journal + more[..n]) + [more[n]];
    }
  }

  /** The view a create leaves, from `v`. */
  ghost function AfterCreate(v: View, opts: Opts, how: Creation, context: Context): View
    requires how.CutOff? ==> how.connected < |opts.extra|
  {
    if how.Made? || how.StaysBehind(context) then
      var k := if how.Made? then |opts.extra| else how.connected;
      v.(containers := v.containers[how.id := Container(opts.role, opts.Endpoints(k))])
    else v
  }

  /** A create that failed is undone unless its context was done when it came to undo it; then it is not. */
  lemma UndoneUnlessDone(v: View, opts: Opts, how: Creation, context: Context)
    requires how.CutOff? && how.connected < |opts.extra| && how.id !in v.containers
    ensures AfterCreate(v, opts, how, context) == v <==> !context.Done(how.at)
    ensures context.Done(how.at) ==>
      Added(v, AfterCreate(v, opts, how, context), how.id, Container(opts.role, opts.Endpoints(how.connected)))
  {
    if context.Done(how.at) {
      assert how.id in AfterCreate(v, opts, how, context).containers;
    }
  }

  /** Without extra networks a create is made or not, and nothing in between. */
  lemma CreateWithoutExtras(v: View, opts: Opts, how: Creation, context: Context)
    requires opts.extra == [] && !how.CutOff? && (how.Made? ==> how.id !in v.containers)
    ensures how.Refused? ==> AfterCreate(v, opts, how, context) == v
    ensures how.Made? ==>
      Added(v, AfterCreate(v, opts, how, context), how.id, Container(opts.role, opts.Endpoints(0)))
  {
  }

  lemma AfterCreateIs(v: View, w: View, opts: Opts, k: nat, id: ContainerId, at: int, context: Context)
    requires k <= |opts.extra| && Added(v, w, id, Container(opts.role, opts.Endpoints(k)))
    ensures k == |opts.extra| ==> AfterCreate(v, opts, Made(id), context) == w
    ensures k < |opts.extra| ==>
      AfterCreate(v, opts, CutOff(id, k, at), context) == if context.Done(at) then w else v
  {
  }

  lemma RemoveUndoesAdd(v: View, w: View, id: ContainerId, c: Container)
    requires Added(v, w, id, c) && v.started <= v.containers.Keys
    ensures WithoutContainers(w, {id}) == v
  {
    assert v.containers[id := c] - {id} == v.containers;
  }

  /** What a successful connect to the next extra network makes of the container. */
  lemma ConnectAddsEndpoint(v: View, w: View, opts: Opts, i: nat, id: ContainerId)
    requires i < |opts.extra| && Added(v, w, id, Container(opts.role, opts.Endpoints(i)))
    ensures id in w.containers && w.network == v.network && w.containers[id].endpoints == opts.Endpoints(i)
    ensures
      var n, before := opts.extra[i], opts.Endpoints(i);
      var c := Container(opts.role, if n in before then before else before[n := opts.AliasOn(n)]);
      Added(v, w.(containers := w.containers[id := c]), id, Container(opts.role, opts.Endpoints(i + 1)))
  {
  }

  class ContainerManager {
    const daemon: Daemon
    const context: Context   // of this run's calls, but for those of a teardown, which run detached from it
    ghost var journal: seq<Entry>

    constructor (daemon: Daemon, context: Context)
      ensures this.daemon == daemon && this.context == context && journal == []
    {
      this.daemon, this.context := daemon, context;
      journal := [];
    }

    predicate ContextDone()
      reads daemon`clock
    {
      context.Done(daemon.clock)
    }

    /** Something stands in the way of the run's calls: its context is done, or the daemon has refused one lately. */
    ghost predicate Hindered(run: RunId, before: nat)
      reads daemon
    {
      ContextDone() || daemon.refused[run] > before
    }

    /**
     All-or-nothing over every network, unless an extra connect fails and the context is
     done by the time that is to be undone: then, and only then, the container stays behind.
     */
    method Create(opts: Opts) returns (r: Result<ContainerId>, ghost how: Creation)
      requires daemon.Valid() && opts.Permitted(daemon.deployment.isolateRuns)
      modifies daemon, this`journal
      ensures daemon.Valid() && journal == old(journal) + how.Entries(opts.role, opts.Networks())
      ensures r == if how.Made? then Success(how.id) else Failure
      ensures how.CutOff? ==> how.connected < |opts.extra|
      ensures daemon.ViewOf(opts.run) == AfterCreate(old(daemon.ViewOf(opts.run)), opts, how, context)
      ensures !how.Refused? ==> how.id !in old(daemon.ViewOf(opts.run)).containers && !old(ContextDone())
      ensures daemon.Onward(opts.run)
      ensures r.Failure? ==>
        || Hindered(opts.run, old(daemon.refused[opts.run]))
        || (opts.NeedsRunNetwork() && !old(daemon.ViewOf(opts.run)).network)
    {
      ghost var v := daemon.ViewOf(opts.run);
      StartedExist(opts.run);
      daemon.Interfere(opts.run);
      if ContextDone() {
        return Failure, Refused;
      }
      r := daemon.ContainerCreate(opts.run, opts.role, opts.primary,
                                  if opts.primary.Some? then opts.AliasOn(opts.primary.value) else "");
      if r.Failure? {
        return Failure, Refused;
      }
      journal := journal + [Created(r.value, opts.role, opts.Networks())];
      var refused: int := *;
      var ok;
      ok, how := ConnectExtras(opts, r.value, refused, v);
      if !ok {
        return Failure, how;
      }
    }

    /** The daemon has no reason of its own to fail the connect to extra network `i`. */
    ghost predicate Accepts(v: View, opts: Opts, i: nat, refused: int)
      requires i < |opts.extra|
    {
      i != refused && (opts.extra[i].RunNetwork? ==> v.network)
    }

    /**
     Create's loop over the extra networks, of which the daemon refuses the one at index
     `refused`, if any.  It stops at the first connect that fails, for the daemon's reasons or
     because the context is done, and a context that is done to begin with fails the first.
     */
    method ConnectExtras(opts: Opts, id: ContainerId, refused: int, ghost v: View)
      returns (ok: bool, ghost how: Creation)
      requires daemon.Valid() && opts.Permitted(daemon.deployment.isolateRuns) && v.started <= v.containers.Keys
      requires Added(v, daemon.ViewOf(opts.run), id, Container(opts.role, opts.Endpoints(0)))
      modifies daemon, this`journal
      ensures daemon.Valid() && old(journal) <= journal
      ensures ok == how.Made? && !how.Refused? && how.id == id
      ensures [Created(id, opts.role, opts.Networks())] + journal[|old(journal)|..]
           == how.Entries(opts.role, opts.Networks())
      ensures how.CutOff? ==> how.connected < |opts.extra|
      ensures daemon.ViewOf(opts.run) == AfterCreate(v, opts, how, context)
      ensures forall i :: 0 <= i < (if ok then |opts.extra| else how.connected) ==> Accepts(v, opts, i, refused)
      ensures how.CutOff? ==> !Accepts(v, opts, how.connected, refused) || how.StaysBehind(context)
      ensures old(ContextDone()) && opts.extra != [] ==> how.StaysBehind(context) && how.connected == 0
      ensures daemon.Onward(opts.run)
      ensures !ok ==>
        Hindered(opts.run, old(daemon.refused[opts.run])) || (opts.NeedsRunNetwork() && !v.network)
    {
      hide Added, AfterCreate, ViewOk;
      for i := 0 to |opts.extra|
        invariant daemon.Valid() && journal == old(journal) && daemon.clock >= old(daemon.clock)
        invariant Added(v, daemon.ViewOf(opts.run), id, Container(opts.role, opts.Endpoints(i)))
        invariant forall j :: 0 <= j < i ==> Accepts(v, opts, j, refused)
        invariant old(ContextDone()) ==> i == 0
        invariant daemon.refused[opts.run] == old(daemon.refused[opts.run])
      {
        ok := ConnectContainer(opts, i, id, i == refused, v);
        if !ok {
          RemoveUndoesAdd(v, daemon.ViewOf(opts.run), id, Container(opts.role, opts.Endpoints(i)));
          ghost var w := daemon.ViewOf(opts.run);
          ghost var at := UndoCreate(opts.run, id);
          AfterCreateIs(v, w, opts, i, id, at, context);
          return false, CutOff(id, i, at);
        }
      }
      AfterCreateIs(v, daemon.ViewOf(opts.run), opts, |opts.extra|, id, 0, context);
      return true, Made(id);
    }

    /** The best-effort remove runs on the caller's context, so it reaches the daemon only while that is not done. */
    method UndoCreate(run: RunId, id: ContainerId) returns (ghost at: int)
      requires daemon.Valid()
      modifies daemon, this`journal
      ensures daemon.Valid() && at == daemon.clock && daemon.Onward(run)
      ensures journal == old(journal) + [UndoTried(id, at)]
      ensures daemon.ViewOf(run)
           == if context.Done(at) then old(daemon.ViewOf(run)) else WithoutContainers(old(daemon.ViewOf(run)), {id})
    {
      daemon.Interfere(run);
      at := daemon.clock;
      journal := journal + [UndoTried(id, at)];
      if !ContextDone() {
        var _ := daemon.ContainerRemove(run, id);
      }
    }

    lemma StartedExist(run: RunId)
      requires daemon.Valid()
      ensures daemon.ViewOf(run).started <= daemon.ViewOf(run).containers.Keys
    {
    }

    /** One connect of Create's loop; an endpoint that is already there is success. */
    method ConnectContainer(opts: Opts, i: nat, id: ContainerId, refuses: bool, ghost v: View) returns (ok: bool)
      requires daemon.Valid() && opts.Permitted(daemon.deployment.isolateRuns) && i < |opts.extra|
      requires Added(v, daemon.ViewOf(opts.run), id, Container(opts.role, opts.Endpoints(i)))
      modifies daemon
      ensures daemon.Valid() && daemon.Onward(opts.run)
      ensures daemon.refused[opts.run] == old(daemon.refused[opts.run]) + if refuses && !ContextDone() then 1 else 0
      ensures ok <==> !refuses && (opts.extra[i].RunNetwork? ==> v.network) && !ContextDone()
      ensures !ok ==> daemon.ViewOf(opts.run) == old(daemon.ViewOf(opts.run))
      ensures ok ==> Added(v, daemon.ViewOf(opts.run), id, Container(opts.role, opts.Endpoints(i + 1)))
    {
      ConnectAddsEndpoint(v, daemon.ViewOf(opts.run), opts, i, id);
      daemon.Interfere(opts.run);
      if ContextDone() {
        return false;
      }
      hide Added, ViewOk;
      ok := daemon.NetworkConnect(opts.run, opts.extra[i], id, opts.AliasOn(opts.extra[i]), refuses);
    }

    method Start(run: RunId, id: ContainerId) returns (ok: bool)
      requires daemon.Valid()
      modifies daemon, this`journal
      ensures daemon.Valid() && journal == if ok then old(journal) + [Started(id)] else old(journal)
      ensures
        var v := old(daemon.ViewOf(run));
        && (ok ==> id in v.containers && !old(ContextDone()))
        && daemon.ViewOf(run) == v.(started := if ok then v.started + {id} else v.started)
        && daemon.Onward(run) && (!ok && id in v.containers ==> Hindered(run, old(daemon.refused[run])))
    {
      daemon.Interfere(run);
      if ContextDone() {
        return false;
      }
      ok := daemon.ContainerStart(run, id);
      if ok { journal := journal + [Started(id)]; }
    }

    /** Only the container's process is concerned, which is not part of the view. */
    method Stop(run: RunId, id: ContainerId) returns (ok: bool)
      requires daemon.Valid()
      modifies daemon
      ensures daemon.Valid() && daemon.ViewOf(run) == old(daemon.ViewOf(run)) && daemon.Onward(run)
    {
      daemon.Interfere(run);
      ok := *;
    }

    method Remove(run: RunId, id: ContainerId) returns (ok: bool)
      requires daemon.Valid()
      modifies daemon
      ensures daemon.Valid() && daemon.ViewOf(run) == WithoutContainers(old(daemon.ViewOf(run)), {id})
      ensures daemon.Onward(run)
    {
      daemon.Interfere(run);
      ok := daemon.ContainerRemove(run, id);
    }

    /** Stop then Remove, both best-effort: the shape of every teardown. */
    method StopAndRemove(run: RunId, id: ContainerId)
      requires daemon.Valid()
      modifies daemon
      ensures daemon.Valid() && daemon.ViewOf(run) == WithoutContainers(old(daemon.ViewOf(run)), {id})
      ensures daemon.Onward(run)
    {
      var _ := Stop(run, id);
      var _ := Remove(run, id);
    }

    /** Idempotent: a network that already has that exact name is success. */
    method CreateNetwork(run: RunId) returns (ok: bool)
      requires daemon.Valid()
      modifies daemon
      ensures daemon.Valid()
      ensures daemon.ViewOf(run) == old(daemon.ViewOf(run)).(network := ok || old(daemon.ViewOf(run)).network)
      ensures ok ==> !old(ContextDone())
      ensures daemon.Onward(run) && (!ok ==> Hindered(run, old(daemon.refused[run])))
    {
      daemon.Interfere(run);
      if ContextDone() {
        return false;
      }
      var listFails := daemon.Refuses(run);
      if listFails {
        return false;
      }
      if daemon.Get(run).network {
        return true;
      }
      daemon.Interfere(run);
      if ContextDone() {
        return false;
      }
      ok := daemon.NetworkCreate(run);
    }

    /** Idempotent: an absent network is success; a network with endpoints stays. */
    method RemoveNetwork(run: RunId) returns (ok: bool)
      requires daemon.Valid()
      modifies daemon
      ensures daemon.Valid()
      ensures
        var v := old(daemon.ViewOf(run));
        && (ok <==> !Attached(v.containers, RunNetwork(run)) && !v.api)
        && daemon.ViewOf(run) == v.(network := v.network && !ok)
        && daemon.Onward(run)
    {
      daemon.Interfere(run);
      ok := daemon.NetworkRemove(run);
    }

    /** An already attached API endpoint is success. */
    method ConnectApi(run: RunId) returns (ok: bool)
      requires daemon.Valid() && daemon.deployment.AttachesApi()
      modifies daemon
      ensures daemon.Valid()
      ensures daemon.ViewOf(run) == old(daemon.ViewOf(run)).(api := ok || old(daemon.ViewOf(run)).api)
      ensures ok ==> !old(ContextDone())
      ensures daemon.Onward(run)
      ensures !ok && old(daemon.ViewOf(run)).network ==> Hindered(run, old(daemon.refused[run]))
    {
      daemon.Interfere(run);
      if ContextDone() {
        return false;
      }
      ok := daemon.NetworkConnectApi(run);
    }

    /** An absent endpoint or network is success. */
    method DisconnectApi(run: RunId)
      requires daemon.Valid()
      modifies daemon
      ensures daemon.Valid() && daemon.ViewOf(run) == old(daemon.ViewOf(run)).(api := false) && daemon.Onward(run)
    {
      daemon.Interfere(run);
      daemon.NetworkDisconnectApi(run);
    }

    /** What an inspect reports is up to the container. */
    method InspectHealth(run: RunId, id: ContainerId) returns (health: Result<Health>)
      requires daemon.Valid()
      modifies daemon, this`journal
      ensures daemon.Valid() && daemon.ViewOf(run) == old(daemon.ViewOf(run)) && daemon.Onward(run)
      ensures journal == old(journal) + [Inspected(id, health, daemon.clock)]
      ensures ContextDone() ==> health.Failure?
    {
      daemon.Interfere(run);
      health := *;
      if ContextDone() { health := Failure; }
      journal := journal + [Inspected(id, health, daemon.clock)];
    }

    /** Blocks until the container exits, the daemon errs or the context is done. */
    method Wait(run: RunId, id: ContainerId) returns (code: Result<int>)
      requires daemon.Valid()
      modifies daemon, this`journal
      ensures daemon.Valid() && daemon.ViewOf(run) == old(daemon.ViewOf(run)) && daemon.Onward(run)
      ensures journal == old(journal) + [Waited(id, code)]
      ensures old(ContextDone()) ==> code.Failure?
    {
      var late := ContextDone();
      daemon.Interfere(run);
      code := *;
      if late { code := Failure; }
      journal := journal + [Waited(id, code)];
    }
  }
}
