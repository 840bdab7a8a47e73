/**
 The sidecar manager: bring up an Environment's services on a per-run network, roll
 back on any error, clean up after the run.
 */
module Sidecars {
  import opened Options
  import opened DockerDaemon
  import CM = Containers

  datatype Service = Service(name: string)

  /** An Environment: its services in order and its setup commands by key. */
  datatype Environment = Environment(services: seq<Service>, commands: map<string, string>)

  function ServicesOf(env: Option<Environment>): seq<Service> {
    if env.Some? then env.value.services else []
  }

  predicate Distinct(names: seq<string>) {
    forall i, j :: 0 <= i < j < |names| ==> names[i] != names[j]
  }

  lemma DistinctGrows(names: seq<string>, name: string)
    ensures Distinct(names + [name]) <==> Distinct(names) && name !in names
  {
    var n, longer := |names|, names + [name];
    assert longer[n] == name && forall i :: 0 <= i < n ==> longer[i] == names[i];
    if Distinct(longer) {
      forall i, j | 0 <= i < j < n ensures names[i] != names[j] {
        assert longer[i] != longer[j];
      }
      forall i | 0 <= i < n ensures names[i] != name {
        assert longer[i] != longer[n];
      }
    } else if Distinct(names) {
      var i, j :| 0 <= i < j <= n && longer[i] == longer[j];
      assert j == n && names[i] == name;
    }
  }

  function NamesOf(services: seq<Service>): seq<string> {
    seq(|services|, i requires 0 <= i < |services| => services[i].name)
  }

  // ----- Reading the journal -----

  /** An inspection of a container that was not ready yet, or the sleep after it. */
  predicate StillStarting(e: CM.Entry, id: ContainerId) {
    || e.Slept?
    || (e.Inspected? && e.id == id && e.health.Success? && (e.health.value.Starting? || e.health.value.NoHealthcheck?))
  }

  /** Entry `i` found the container healthy, or running and was followed by a full grace delay. */
  predicate ReadyAt(journal: seq<CM.Entry>, i: int, id: ContainerId, grace: nat)
    requires 0 <= i < |journal|
  {
    var e := journal[i];
    && e.Inspected? && e.id == id && e.health.Success?
    && (|| e.health.value.Healthy?
        || (e.health.value.Running? && i + 1 < |journal|
            && journal[i + 1].Slept? && journal[i + 1].until >= e.at + grace))
  }

  predicate AllStarting(journal: seq<CM.Entry>, from: nat, to: nat, id: ContainerId)
    requires to <= |journal|
  {
    forall k :: from <= k < to ==> StillStarting(journal[k], id)
  }

  /** The inspection erred, or found the container unhealthy or not running. */
  predicate RuledOut(e: CM.Entry, id: ContainerId) {
    && e.Inspected? && e.id == id
    && (e.health.Failure? || e.health.value.Unhealthy? || e.health.value.NotRunning?)
  }

  /** An inspection after which a context that is done ends the wait in one of its sleeps. */
  predicate CutShort(e: CM.Entry, id: ContainerId, done: bool) {
    done && e.Inspected? && e.id == id && (e.health == Success(Running) || StillStarting(e, id))
  }

  /** The inspection came when the deadline had passed, and the container was still starting. */
  predicate Overdue(e: CM.Entry, id: ContainerId, deadline: int) {
    e.Inspected? && StillStarting(e, id) && e.at >= deadline
  }

  /**
   A wait that was given up: everything from entry `from` on was still starting, up to a last inspection that
   ruled the container out, or was cut short by the context, or came when the deadline had passed.
   */
  predicate GivenUp(journal: seq<CM.Entry>, from: nat, id: ContainerId, done: bool, deadline: int) {
    from < |journal| && AllStarting(journal, from, |journal| - 1, id) &&
    var e := journal[|journal| - 1];
    RuledOut(e, id) || CutShort(e, id, done) || Overdue(e, id, deadline)
  }

  /** The journal ends, after entry `from`, with an inspection that ruled some container out or was overdue. */
  predicate NotReady(journal: seq<CM.Entry>, from: nat, deadline: int) {
    from < |journal| &&
    var e := journal[|journal| - 1];
    e.Inspected? && (RuledOut(e, e.id) || Overdue(e, e.id, deadline))
  }

  lemma StartingStays(before: seq<CM.Entry>, now: seq<CM.Entry>, from: nat, id: ContainerId)
    requires AllStarting(before, from, |before|, id) && before <= now
    ensures AllStarting(now, from, |before|, id)
    ensures AllStarting(now, |before|, |now|, id) ==> AllStarting(now, from, |now|, id)
  {
  }

  function TimeOf(e: CM.Entry): Option<int> {
    match e
    case Inspected(_, _, at) => Some(at)
    case Slept(until) => Some(until)
    case _ => None
  }

  /** From `was` to `now` nothing but `polls` inspections and some sleeps happened, at times between `from` and `to`. */
  ghost predicate Watched(was: seq<CM.Entry>, now: seq<CM.Entry>, polls: nat, from: int, to: int) {
    && was <= now && CM.InspectionsIn(now) == CM.InspectionsIn(was) + polls && CM.SidecarsIn(now) == CM.SidecarsIn(was)
    && forall k :: |was| <= k < |now| ==> TimeOf(now[k]).Some? && from <= TimeOf(now[k]).value <= to
  }

  lemma WatchedNone(was: seq<CM.Entry>, from: int, to: int)
    ensures Watched(was, was, 0, from, to)
  {
  }

  lemma WatchedOne(was: seq<CM.Entry>, e: CM.Entry, from: int, to: int)
    requires TimeOf(e).Some? && from <= TimeOf(e).value <= to
    ensures Watched(was, was + [e], if e.Inspected? then 1 else 0, from, to)
  {
    CM.OneEntryMore(was, e);
  }

  lemma WatchedOn(was: seq<CM.Entry>, mid: seq<CM.Entry>, now: seq<CM.Entry>, a: nat, b: nat, from: int, between: int,
                  to: int)
    requires from <= between <= to && Watched(was, mid, a, from, between) && Watched(mid, now, b, between, to)
    ensures Watched(was, now, a + b, from, to)
  {
  }

  /** So a container accepted as merely running has cost the caller a full grace delay. */
  lemma GraceIsSpent(was: seq<CM.Entry>, now: seq<CM.Entry>, polls: nat, from: int, to: int, i: nat, id: ContainerId,
                     grace: nat)
    requires Watched(was, now, polls, from, to) && |was| <= i < |now| && ReadyAt(now, i, id, grace)
    ensures now[i].health == Success(Running) ==> to >= from + grace
  {
  }

  ghost predicate SeenReady(journal: seq<CM.Entry>, id: ContainerId, grace: nat) {
    exists i :: 0 <= i < |journal| && ReadyAt(journal, i, id, grace)
  }

  lemma SeenStays(before: seq<CM.Entry>, after: seq<CM.Entry>, id: ContainerId, grace: nat)
    requires before <= after && SeenReady(before, id, grace)
    ensures SeenReady(after, id, grace)
  {
    var i :| 0 <= i < |before| && ReadyAt(before, i, id, grace);
    assert ReadyAt(after, i, id, grace);
  }

  // ----- What is made and what is lost -----

  /** The containers of `made` that no name leads to any more. */
  ghost function LostOf(made: map<ContainerId, Container>, ids: map<string, ContainerId>): set<ContainerId> {
    made.Keys - ids.Values
  }

  /** Each name leads to the container made for it. */
  ghost predicate Named(made: map<ContainerId, Container>, ids: map<string, ContainerId>) {
    forall name :: name in ids ==> ids[name] in made && made[ids[name]].role == Sidecar(name)
  }

  /** The containers made for the services of one name. */
  ghost function MadeFor(made: map<ContainerId, Container>, name: string): set<ContainerId> {
    set id | id in made && made[id].role == Sidecar(name)
  }

  /** As many containers as services, name by name. */
  ghost predicate Counted(made: map<ContainerId, Container>, names: seq<string>) {
    |made| == |names| && forall name :: |MadeFor(made, name)| == multiset(names)[name]
  }

  /** A container is lost exactly when a later service reused its name. */
  ghost predicate RecordsOk(run: RunId, made: map<ContainerId, Container>, ids: map<string, ContainerId>,
                            names: seq<string>)
  {
    && (forall id :: id in made ==>
          made[id].role.Sidecar? && made[id].endpoints == map[RunNetwork(run) := made[id].role.service])
    && Named(made, ids)
    && (forall name :: name in ids <==> name in names)
    && (LostOf(made, ids) == {} <==> Distinct(names))
  }

  ghost predicate PlusMade(v: View, base: View, made: map<ContainerId, Container>) {
    && base.started <= base.containers.Keys
    && made.Keys !! base.containers.Keys
    && v.containers == base.containers + made
    && base.started <= v.started <= base.started + made.Keys
  }

  lemma RecordKeepsRecords(run: RunId, made: map<ContainerId, Container>, ids: map<string, ContainerId>,
                           names: seq<string>, name: string, id: ContainerId)
    requires RecordsOk(run, made, ids, names) && id !in made
    ensures RecordsOk(run, made[id := Container(Sidecar(name), map[RunNetwork(run) := name])], ids[name := id],
      names + [name])
  {
    var c := Container(Sidecar(name), map[RunNetwork(run) := name]);
    hide LostOf, Distinct;
    DistinctGrows(names, name);
    RecordLosesOnlyTheOverwritten(made, ids, name, id, c);
    NamesGrow(ids, names, name, id);
  }

  lemma NamesGrow(ids: map<string, ContainerId>, names: seq<string>, name: string, id: ContainerId)
    requires forall x :: x in ids <==> x in names
    ensures forall x :: x in ids[name := id] <==> x in names + [name]
  {
  }

  lemma CountOneMore(made: map<ContainerId, Container>, names: seq<string>, name: string, id: ContainerId, c: Container)
    requires Counted(made, names) && id !in made && c.role == Sidecar(name)
    ensures Counted(made[id := c], names + [name])
  {
    forall n ensures |MadeFor(made[id := c], n)| == multiset(names + [name])[n] {
      OneMoreMade(made, names, name, id, c, n);
    }
    hide MadeFor;
  }

  lemma OneMoreMade(made: map<ContainerId, Container>, names: seq<string>, name: string, id: ContainerId, c: Container,
                    n: string)
    requires id !in made && c.role == Sidecar(name) && |MadeFor(made, n)| == multiset(names)[n]
    ensures |MadeFor(made[id := c], n)| == multiset(names + [name])[n]
  {
    assert MadeFor(made[id := c], n) == MadeFor(made, n) + if n == name then {id} else {};
    assert multiset(names + [name]) == multiset(names) + multiset{name};
  }

  lemma AddedIsMade(v: View, w: View, base: View, made: map<ContainerId, Container>, id: ContainerId, c: Container)
    requires PlusMade(v, base, made) && CM.Added(v, w, id, c)
    ensures id !in made && PlusMade(w, base, made[id := c])
  {
    assert base.containers + made[id := c] == (base.containers + made)[id := c];
  }

  lemma StartKeepsCover(v: View, base: View, made: map<ContainerId, Container>, id: ContainerId)
    requires PlusMade(v, base, made) && id in made
    ensures PlusMade(v.(started := v.started + {id}), base, made)
  {
  }

  /**
   What Launch hands back.  `containerIDs` is keyed by service name.  `made` records
   every sidecar container created for it, and `names` the services they were made for
   in order.
   */
  class SidecarContext {
    const run: RunId
    var networkUp: bool
    var containerIDs: map<string, ContainerId>
    var serviceAddrs: map<string, string>
    ghost var made: map<ContainerId, Container>
    ghost var names: seq<string>

    constructor (run: RunId)
      ensures this.run == run && !networkUp && containerIDs == map[] && serviceAddrs == map[]
      ensures made == map[] && names == []
    {
      this.run := run;
      networkUp, containerIDs, serviceAddrs, made, names := false, map[], map[], map[], [];
    }

    ghost predicate Valid()
      reads this
    {
      RecordsOk(run, made, containerIDs, names)
    }

    /** As many containers as services launched, name by name. */
    ghost predicate Tallied()
      reads this`made, this`names
    {
      Counted(made, names)
    }

    /** The run's view is `base` plus exactly the containers made here. */
    ghost predicate Covers(v: View, base: View)
      reads this
    {
      PlusMade(v, base, made)
    }

    ghost predicate AllReadyBut(v: View, journal: seq<CM.Entry>, grace: nat, id: ContainerId, service: string)
      reads this
    {
      && made.Keys - {id} <= v.started
      && (forall x :: x in made && x != id ==> SeenReady(journal, x, grace))
      && (forall name :: name in containerIDs && name != service ==> name in serviceAddrs && serviceAddrs[name] == name)
    }

    /** Every service so far is started, was seen ready, and is addressed by its name. */
    ghost predicate AllReady(v: View, journal: seq<CM.Entry>, grace: nat)
      reads this
    {
      && made.Keys <= v.started
      && (forall id :: id in made ==> SeenReady(journal, id, grace))
      && (forall name :: name in containerIDs ==> name in serviceAddrs && serviceAddrs[name] == name)
    }

    lemma ReadyStays(v: View, before: seq<CM.Entry>, after: seq<CM.Entry>, grace: nat)
      requires AllReady(v, before, grace) && before <= after
      ensures AllReady(v, after, grace)
    {
      forall id | id in made ensures SeenReady(after, id, grace) {
        SeenStays(before, after, id, grace);
      }
    }

    lemma ReadyButStays(v: View, before: seq<CM.Entry>, after: seq<CM.Entry>, grace: nat, id: ContainerId,
                        service: string)
      requires AllReadyBut(v, before, grace, id, service) && before <= after
      ensures AllReadyBut(v, after, grace, id, service)
    {
      forall x | x in made && x != id ensures SeenReady(after, x, grace) {
        SeenStays(before, after, x, grace);
      }
    }

    /** The service is addressed by its name, its DNS alias on the run network. */
    method MarkReady(id: ContainerId, service: string, ghost v: View, ghost base: View, ghost journal: seq<CM.Entry>,
                     ghost grace: nat)
      requires Covers(v, base) && AllReadyBut(v, journal, grace, id, service)
      requires id in made && id in v.started && SeenReady(journal, id, grace)
      modifies this`serviceAddrs
      ensures Covers(v, base) && AllReady(v, journal, grace)
    {
      serviceAddrs := serviceAddrs[service := service];
    }
  }

  lemma RecordLosesOnlyTheOverwritten(made: map<ContainerId, Container>, ids: map<string, ContainerId>, name: string,
                                      id: ContainerId, c: Container)
    requires Named(made, ids) && id !in made
    ensures LostOf(made[id := c], ids[name := id]) == LostOf(made, ids) + if name in ids then {ids[name]} else {}
  {
    var ids' := ids[name := id];
    forall x | x in made
      ensures x in ids'.Values <==> x in ids.Values && !(name in ids && x == ids[name])
    {
      if x in ids.Values {
        var n :| n in ids && ids[n] == x;
        if n != name { assert n in ids' && ids'[n] == x; }
      }
      if x in ids'.Values {
        var n :| n in ids' && ids'[n] == x;
        assert n in ids && ids[n] == x;
      }
    }
    assert name in ids' && ids'[name] == id;
  }

  function CeilDiv(a: nat, b: nat): nat
    requires b > 0
  {
    (a + b - 1) / b
  }

  /** The most inspections one readiness wait can make. */
  function MaxPolls(timeout: nat, interval: nat): (polls: nat)
    requires interval > 0
    ensures polls > 0
  {
    CeilDiv(timeout, interval) + 1
  }

  /** The least time that many completed sleeps take. */
  function Spent(polls: nat, interval: nat): nat {
    polls * interval
  }

  lemma SpentOnceMore(polls: nat, interval: nat)
    ensures Spent(polls + 1, interval) == Spent(polls, interval) + interval && Spent(0, interval) == 0
  {
  }

  lemma PollsLeft(polls: nat, timeout: nat, interval: nat)
    requires interval > 0 && Spent(polls, interval) < timeout
    ensures polls + 1 < MaxPolls(timeout, interval)
  {
    var n := CeilDiv(timeout, interval);
    assert timeout <= n * interval;
    if n <= polls {
      MulMonotone(n, polls, interval);
    }
  }

  lemma MulMonotone(a: nat, b: nat, c: nat)
    requires a <= b
    ensures a * c <= b * c
  {
  }

  class SidecarManager {
    const containers: CM.ContainerManager
    const readinessTimeout: nat
    const readinessInterval: nat
    const runningGrace: nat

    constructor (containers: CM.ContainerManager, readinessTimeout: nat, readinessInterval: nat, runningGrace: nat)
      requires readinessInterval > 0
      ensures this.containers == containers && Configured()
    {
      this.containers := containers;
      this.readinessTimeout, this.readinessInterval, this.runningGrace := readinessTimeout, readinessInterval,
        runningGrace;
    }

    /** The poll period is the positive default; nothing ever resets it. */
    predicate Configured() { readinessInterval > 0 }

    /** Waits at least `d` unless the context is done first. */
    method Sleep(run: RunId, d: nat) returns (ok: bool)
      requires containers.daemon.Valid()
      modifies containers.daemon, containers`journal
      ensures containers.daemon.Valid() && containers.daemon.ViewOf(run) == old(containers.daemon.ViewOf(run))
      ensures containers.daemon.clock >= old(containers.daemon.clock) + if ok then d else 0
      ensures containers.journal
           == if ok then old(containers.journal) + [CM.Slept(containers.daemon.clock)] else old(containers.journal)
      ensures if ok then !old(containers.ContextDone()) else containers.ContextDone()
      ensures containers.daemon.Onward(run)
    {
      var doneAlready := containers.ContextDone();
      containers.daemon.Interfere(run);
      var timerFirst: bool := *;   // which arm of the select is taken; a delay of 0 only looks at the context
      ok := !doneAlready && (!containers.ContextDone() || (d > 0 && timerFirst));
      if ok {
        containers.daemon.TimePasses(d);
        containers.journal := containers.journal + [CM.Slept(containers.daemon.clock)];
      }
    }

    /** One inspection and, when the container is merely running, the grace delay after it; None means poll again. */
    method Poll(run: RunId, id: ContainerId) returns (ready: Option<bool>)
      requires containers.daemon.Valid()
      modifies containers.daemon, containers`journal
      ensures containers.daemon.Valid() && containers.daemon.ViewOf(run) == old(containers.daemon.ViewOf(run))
      ensures containers.daemon.Onward(run) && old(containers.journal) <= containers.journal
      ensures Watched(old(containers.journal), containers.journal, 1,
                      old(containers.daemon.clock), containers.daemon.clock)
      ensures ready.None? ==> AllStarting(containers.journal, |old(containers.journal)|, |containers.journal|, id)
      ensures ready == Some(true) ==>
        |old(containers.journal)| < |containers.journal| <= |old(containers.journal)| + 2
        && ReadyAt(containers.journal, |old(containers.journal)|, id, runningGrace)
      ensures ready != Some(true) ==>
        && |containers.journal| == |old(containers.journal)| + 1
        && var e := containers.journal[|old(containers.journal)|];
           if ready.None? then e.Inspected? && StillStarting(e, id) && e.at == containers.daemon.clock
           else RuledOut(e, id) || CutShort(e, id, containers.ContextDone())
    {
      ghost var was, begin := containers.journal, containers.daemon.clock;
      var status := containers.InspectHealth(run, id);
      WatchedOne(was, CM.Inspected(id, status, containers.daemon.clock), begin, containers.daemon.clock);
      if status.Failure? {
        return Some(false);
      }
      match status.value {
        case Healthy => return Some(true);
        case Running =>
          ghost var inspected, since := containers.journal, containers.daemon.clock;
          var ok := Sleep(run, runningGrace);
          WatchedNone(inspected, since, containers.daemon.clock);
          WatchedOne(inspected, CM.Slept(containers.daemon.clock), since, containers.daemon.clock);
          WatchedOn(was, inspected, containers.journal, 1, 0, begin, since, containers.daemon.clock);
          return Some(ok);
        case Unhealthy => return Some(false);
        case NotRunning => return Some(false);
        case _ => return None;
      }
    }

    /**
     Polls until ready, with at most ceil(timeout / interval) + 1 inspections, one that errs
     included.  Success means the last inspection said healthy, or said running and the
     grace delay then passed in full; failure, that it ruled the container out, that the
     context cut a sleep after it short, or that the deadline had passed.  Everything seen
     before it was still starting.
     */
    method WaitReady(run: RunId, id: ContainerId) returns (ok: bool)
      requires containers.daemon.Valid() && Configured()
      modifies containers.daemon, containers`journal
      ensures containers.daemon.Valid() && containers.daemon.ViewOf(run) == old(containers.daemon.ViewOf(run))
      ensures old(containers.journal) <= containers.journal
      ensures exists polls: nat ::
        && polls <= MaxPolls(readinessTimeout, readinessInterval)
        && Watched(old(containers.journal), containers.journal, polls,
                   old(containers.daemon.clock), containers.daemon.clock)
      ensures ok ==>
        var from, now := |old(containers.journal)|, containers.journal;
        exists i :: from <= i < |now| <= i + 2 && ReadyAt(now, i, id, runningGrace) && AllStarting(now, from, i, id)
      ensures !ok ==>
        GivenUp(containers.journal, |old(containers.journal)|, id, containers.ContextDone(),
                old(containers.daemon.clock) + readinessTimeout)
      ensures containers.daemon.Onward(run)
    {
      hide Watched, ReadyAt, CM.InspectionsIn, CM.SidecarsIn, ViewOk, MaxPolls, CeilDiv, AllStarting, Spent;
      ghost var was := containers.journal;
      var begin := containers.daemon.clock;
      var deadline := begin + readinessTimeout;
      ghost var polls: nat := 0;
      WatchedNone(was, begin, begin);
      NothingYet(was, id);
      SpentOnceMore(0, readinessInterval);
      while true
        invariant containers.daemon.Valid() && containers.daemon.ViewOf(run) == old(containers.daemon.ViewOf(run))
        invariant was <= containers.journal && polls < MaxPolls(readinessTimeout, readinessInterval)
        invariant Watched(was, containers.journal, polls, begin, containers.daemon.clock)
        invariant containers.daemon.clock >= begin + Spent(polls, readinessInterval)
        invariant containers.daemon.Onward(run)
        invariant AllStarting(containers.journal, |was|, |containers.journal|, id)
        decreases MaxPolls(readinessTimeout, readinessInterval) - polls
      {
        ghost var before, since := containers.journal, containers.daemon.clock;
        var ready := Poll(run, id);
        WatchedOn(was, before, containers.journal, polls, 1, begin, since, containers.daemon.clock);
        StartingStays(before, containers.journal, |was|, id);
        if ready.Some? {
          return ready.value;
        }
        if containers.daemon.clock >= deadline {
          return false;
        }
        PollsLeft(polls, readinessTimeout, readinessInterval);
        SpentOnceMore(polls, readinessInterval);
        ghost var polled, later := containers.journal, containers.daemon.clock;
        var slept := Sleep(run, readinessInterval);
        if !slept {
          WatchedNone(polled, later, containers.daemon.clock);
          WatchedOn(was, polled, containers.journal, polls + 1, 0, begin, later, containers.daemon.clock);
          return false;
        }
        StartingStays(polled, containers.journal, |was|, id);
        SleepIsNoReadiness(polled, containers.daemon.clock, id);
        WatchedOne(polled, CM.Slept(containers.daemon.clock), later, containers.daemon.clock);
        WatchedOn(was, polled, containers.journal, polls + 1, 0, begin, later, containers.daemon.clock);
        polls := polls + 1;
      }
    }

    /**
     The context is in order: the run's view is `base` plus exactly what it made, and the
     journal shows the sidecars of `earlier` and then those of its own services.
     */
    ghost predicate Tracks(sc: SidecarContext, base: View, earlier: seq<string>)
      reads containers, containers.daemon, sc
    {
      && containers.daemon.Valid() && sc.Valid() && sc.Tallied() && sc.Covers(containers.daemon.ViewOf(sc.run), base)
      && CM.SidecarsIn(containers.journal) == earlier + sc.names
    }

    ghost predicate Ready(sc: SidecarContext)
      reads containers, containers.daemon, sc
    {
      sc.AllReady(containers.daemon.ViewOf(sc.run), containers.journal, runningGrace)
    }

    ghost predicate ReadyBut(sc: SidecarContext, id: ContainerId, service: string)
      reads containers, containers.daemon, sc
    {
      sc.AllReadyBut(containers.daemon.ViewOf(sc.run), containers.journal, runningGrace, id, service)
    }

    /** A container for the service, attached to the run network at creation and to nothing else, under its own name. */
    method CreateOnRunNetwork(run: RunId, name: string) returns (r: Result<ContainerId>)
      requires containers.daemon.Valid()
      modifies containers.daemon, containers`journal
      ensures containers.daemon.Valid()
      ensures r.Failure? ==>
        && containers.daemon.ViewOf(run) == old(containers.daemon.ViewOf(run))
        && containers.journal == old(containers.journal)
        && (|| containers.Hindered(run, old(containers.daemon.refused[run]))
            || !old(containers.daemon.ViewOf(run)).network)
      ensures containers.daemon.Onward(run)
      ensures r.Success? ==>
        && containers.journal == old(containers.journal) + [CM.Created(r.value, Sidecar(name), [RunNetwork(run)])]
        && CM.Added(old(containers.daemon.ViewOf(run)), containers.daemon.ViewOf(run), r.value,
                    Container(Sidecar(name), map[RunNetwork(run) := name]))
    {
      var net := RunNetwork(run);
      ghost var made;
      var opts := CM.Opts(run, Sidecar(name), Some(net), [], map[net := name]);
      assert opts.Networks() == [net];
      r, made := containers.Create(opts);
    }

    /** Creates one sidecar and records it at once, so that a rollback can reach it even if its start fails. */
    method CreateSidecar(sc: SidecarContext, svc: Service, ghost base: View, ghost earlier: seq<string>)
      returns (r: Result<ContainerId>)
      requires Tracks(sc, base, earlier) && Ready(sc)
      modifies containers.daemon, containers`journal, sc`containerIDs, sc`made, sc`names
      ensures Tracks(sc, base, earlier) && old(containers.journal) <= containers.journal
      ensures containers.daemon.ViewOf(sc.run)
           == old(containers.daemon.ViewOf(sc.run)).(containers := containers.daemon.ViewOf(sc.run).containers)
      ensures sc.names == if r.Success? then old(sc.names) + [svc.name] else old(sc.names)
      ensures r.Success? ==> r.value in sc.made && ReadyBut(sc, r.value, svc.name)
      ensures containers.daemon.Onward(sc.run)
      ensures r.Failure? ==>
        || containers.Hindered(sc.run, old(containers.daemon.refused[sc.run]))
        || !old(containers.daemon.ViewOf(sc.run)).network
    {
      hide RecordsOk, Counted, PlusMade, CM.Added, ViewOk, CM.SidecarsIn, SeenReady;
      ghost var v, was := containers.daemon.ViewOf(sc.run), containers.journal;
      r := CreateOnRunNetwork(sc.run, svc.name);
      if r.Success? {
        ghost var c := Container(Sidecar(svc.name), map[RunNetwork(sc.run) := svc.name]);
        CM.OneEntryMore(was, CM.Created(r.value, Sidecar(svc.name), [RunNetwork(sc.run)]));
        sc.ReadyStays(v, was, containers.journal, runningGrace);
        AddedIsMade(v, containers.daemon.ViewOf(sc.run), base, sc.made, r.value, c);
        CountOneMore(sc.made, sc.names, svc.name, r.value, c);
        RecordKeepsRecords(sc.run, sc.made, sc.containerIDs, sc.names, svc.name, r.value);
        sc.containerIDs := sc.containerIDs[svc.name := r.value];
        sc.made := sc.made[r.value := c];
        sc.names := sc.names + [svc.name];
      }
    }

    /** What may keep sidecars from coming up: the run's calls were hindered, or a container did not get ready. */
    twostate predicate ComesToGrief(run: RunId)
      reads containers, containers.daemon
    {
      || containers.Hindered(run, old(containers.daemon.refused[run]))
      || NotReady(containers.journal, |old(containers.journal)|, old(containers.daemon.clock) + readinessTimeout)
    }

    /** Starts the container and waits for it; how that went is in the journal. */
    method StartAndWait(sc: SidecarContext, svc: Service, id: ContainerId, ghost base: View) returns (ok: bool)
      requires containers.daemon.Valid() && Configured() && id in sc.made
      requires sc.Covers(containers.daemon.ViewOf(sc.run), base) && ReadyBut(sc, id, svc.name)
      modifies containers.daemon, containers`journal, sc`serviceAddrs
      ensures containers.daemon.Valid() && sc.Covers(containers.daemon.ViewOf(sc.run), base)
      ensures old(containers.journal) <= containers.journal
      ensures CM.SidecarsIn(containers.journal) == CM.SidecarsIn(old(containers.journal))
      ensures
        var v, w := old(containers.daemon.ViewOf(sc.run)), containers.daemon.ViewOf(sc.run);
        w == v.(started := w.started)
      ensures ok ==> Ready(sc)
      ensures containers.daemon.Onward(sc.run) && (!ok ==> ComesToGrief(sc.run))
    {
      hide RecordsOk, Counted, CM.SidecarsIn, CM.InspectionsIn, SeenReady, ViewOk;
      ghost var v, was := containers.daemon.ViewOf(sc.run), containers.journal;
      StartKeepsCover(v, base, sc.made, id);
      ok := containers.Start(sc.run, id);
      hide PlusMade;
      assert containers.daemon.ViewOf(sc.run) == if ok then v.(started := v.started + {id}) else v;
      CM.OneEntryMore(was, CM.Started(id));
      if ok {
        ok := WaitReady(sc.run, id);
        if ok {
          WaitSawReady(was, containers.journal, id, runningGrace);
          sc.ReadyButStays(containers.daemon.ViewOf(sc.run), was, containers.journal, runningGrace, id, svc.name);
          sc.MarkReady(id, svc.name, containers.daemon.ViewOf(sc.run), base, containers.journal, runningGrace);
        }
      }
    }

    lemma SleepIsNoReadiness(journal: seq<CM.Entry>, until: int, id: ContainerId)
      ensures AllStarting(journal + [CM.Slept(until)], |journal|, |journal| + 1, id)
    {
    }

    lemma NothingYet(journal: seq<CM.Entry>, id: ContainerId)
      ensures AllStarting(journal, |journal|, |journal|, id)
    {
    }

    lemma WaitSawReady(was: seq<CM.Entry>, now: seq<CM.Entry>, id: ContainerId, grace: nat)
      requires exists i :: |was| <= i < |now| && ReadyAt(now, i, id, grace)
      ensures SeenReady(now, id, grace)
    {
    }

    method LaunchService(sc: SidecarContext, svc: Service, ghost base: View, ghost earlier: seq<string>)
      returns (ok: bool)
      requires Configured() && Tracks(sc, base, earlier) && Ready(sc)
      modifies containers.daemon, containers`journal, sc`containerIDs, sc`made, sc`names, sc`serviceAddrs
      ensures Tracks(sc, base, earlier) && old(containers.journal) <= containers.journal
      ensures containers.daemon.ViewOf(sc.run).network == old(containers.daemon.ViewOf(sc.run)).network
      ensures containers.daemon.ViewOf(sc.run).api == old(containers.daemon.ViewOf(sc.run)).api
      ensures sc.names == old(sc.names) || sc.names == old(sc.names) + [svc.name]
      ensures containers.daemon.Onward(sc.run)
      ensures !ok ==> ComesToGrief(sc.run) || !old(containers.daemon.ViewOf(sc.run)).network
      ensures ok ==> sc.names == old(sc.names) + [svc.name] && Ready(sc)
    {
      hide RecordsOk, Counted, PlusMade, ViewOk, CM.SidecarsIn, SeenReady;
      var r := CreateSidecar(sc, svc, base, earlier);
      if r.Failure? {
        return false;
      }
      ok := StartAndWait(sc, svc, r.value, base);
    }

    /** Stops and removes every container the context still knows by name; nothing else. */
    method TeardownContainers(sc: SidecarContext)
      requires containers.daemon.Valid() && sc.Valid()
      modifies containers.daemon
      ensures containers.daemon.Valid()
      ensures containers.daemon.ViewOf(sc.run) == WithoutContainers(old(containers.daemon.ViewOf(sc.run)),
        sc.containerIDs.Values)
      ensures containers.daemon.Onward(sc.run)
    {
      ghost var v := containers.daemon.ViewOf(sc.run);
      var todo := sc.containerIDs.Keys;
      ghost var gone: set<ContainerId> := {};
      assert WithoutContainers(v, gone) == v;
      while todo != {}
        invariant containers.daemon.Valid() && todo <= sc.containerIDs.Keys
        invariant gone <= sc.containerIDs.Values
        invariant forall name :: name in sc.containerIDs && name !in todo ==> sc.containerIDs[name] in gone
        invariant containers.daemon.ViewOf(sc.run) == WithoutContainers(v, gone) && containers.daemon.Onward(sc.run)
      {
        var name :| name in todo;
        var id := sc.containerIDs[name];
        containers.StopAndRemove(sc.run, id);
        WithoutOneMore(v, gone, id);
        todo, gone := todo - {name}, gone + {id};
      }
      assert gone == sc.containerIDs.Values;
    }

    /** Containers, then the API's endpoint, then the network: the order the daemon insists on. */
    method Teardown(sc: SidecarContext, ghost base: View)
      requires containers.daemon.Valid() && sc.Valid() && sc.Covers(containers.daemon.ViewOf(sc.run), base)
      requires sc.networkUp && containers.daemon.ViewOf(sc.run).network
      modifies containers.daemon
      ensures containers.daemon.Valid()
      ensures Restored(containers.daemon.ViewOf(sc.run), base, sc.run, sc.made - sc.containerIDs.Values)
      ensures containers.daemon.Onward(sc.run)
    {
      ghost var v := containers.daemon.ViewOf(sc.run);
      ghost var named := sc.containerIDs.Values;
      TeardownContainers(sc);
      NamedAreMade(sc);
      TeardownLeavesLost(v, base, sc.made, named);
      DisconnectApi(sc.run);
      var _ := containers.RemoveNetwork(sc.run);
    }

    lemma TeardownLeavesLost(v: View, base: View, made: map<ContainerId, Container>, named: set<ContainerId>)
      requires base.started <= base.containers.Keys && made.Keys !! base.containers.Keys && named <= made.Keys
      requires v.containers == base.containers + made && base.started <= v.started <= base.started + made.Keys
      ensures
        var w := WithoutContainers(v, named);
        && (made - named).Keys !! base.containers.Keys
        && w.containers == base.containers + (made - named)
        && base.started <= w.started <= base.started + (made - named).Keys
    {
    }

    lemma NamedAreMade(sc: SidecarContext)
      requires sc.Valid()
      ensures sc.containerIDs.Values <= sc.made.Keys
    {
    }

    method DisconnectApi(run: RunId)
      requires containers.daemon.Valid()
      modifies containers.daemon
      ensures containers.daemon.Valid()
      ensures containers.daemon.ViewOf(run) == old(containers.daemon.ViewOf(run)).(api := false)
      ensures containers.daemon.Onward(run)
    {
      if containers.daemon.deployment.AttachesApi() {
        containers.DisconnectApi(run);
      }
    }

    method Rollback(sc: SidecarContext, ghost base: View)
      requires containers.daemon.Valid() && sc.Valid() && sc.Covers(containers.daemon.ViewOf(sc.run), base)
      requires sc.networkUp && containers.daemon.ViewOf(sc.run).network
      modifies containers.daemon
      ensures containers.daemon.Valid()
      ensures Restored(containers.daemon.ViewOf(sc.run), base, sc.run, sc.made - sc.containerIDs.Values)
      ensures containers.daemon.Onward(sc.run)
    {
      Teardown(sc, base);
    }

    /** A context with nothing in it is left alone. */
    method Cleanup(sc: SidecarContext, ghost base: View)
      requires containers.daemon.Valid() && sc.Valid() && sc.Covers(containers.daemon.ViewOf(sc.run), base)
      requires if sc.networkUp then containers.daemon.ViewOf(sc.run).network else sc.made == map[]
      modifies containers.daemon
      ensures containers.daemon.Valid()
      ensures if sc.networkUp then Restored(containers.daemon.ViewOf(sc.run), base, sc.run,
        sc.made - sc.containerIDs.Values)
              else containers.daemon.ViewOf(sc.run) == old(containers.daemon.ViewOf(sc.run))
      ensures containers.daemon.Onward(sc.run)
    {
      if |sc.containerIDs| == 0 && !sc.networkUp {
        return;
      }
      NamedAreMade(sc);
      Teardown(sc, base);
    }

    /** On the run network that is there: the API's endpoint, then the services. */
    method BringUp(sc: SidecarContext, services: seq<Service>, ghost base: View, ghost earlier: seq<string>)
      returns (ok: bool)
      requires Configured() && Tracks(sc, base, earlier) && Ready(sc) && sc.names == []
      requires containers.daemon.ViewOf(sc.run).network
      modifies containers.daemon, containers`journal, sc`containerIDs, sc`made, sc`names, sc`serviceAddrs
      ensures Tracks(sc, base, earlier) && old(containers.journal) <= containers.journal
      ensures containers.daemon.ViewOf(sc.run).network
      ensures sc.names <= NamesOf(services) && containers.daemon.Onward(sc.run)
      ensures !ok ==> ComesToGrief(sc.run)
      ensures ok ==>
        && sc.names == NamesOf(services) && Ready(sc)
        && containers.daemon.ViewOf(sc.run).api == containers.daemon.deployment.AttachesApi()
    {
      hide RecordsOk, Counted, ViewOk, CM.SidecarsIn, SeenReady;
      ok := ConnectApi(sc.run);
      hide PlusMade;
      if ok {
        ok := LaunchServices(sc, services, base, earlier);
      }
    }

    /**
     All-or-nothing.  On failure nothing of the run is left that was not there before,
     except the containers a repeated service name made it forget; on success there is
     exactly one started and ready container per service, reachable by its name.
     */
    method Launch(run: RunId, env: Option<Environment>)
      returns (r: Result<SidecarContext>, ghost lost: map<ContainerId, Container>, ghost launched: seq<string>)
      requires containers.daemon.Valid() && Configured()
      modifies containers.daemon, containers`journal
      ensures containers.daemon.Valid() && old(containers.journal) <= containers.journal
      ensures launched <= NamesOf(ServicesOf(env))
      ensures containers.daemon.Onward(run) && (r.Failure? ==> ComesToGrief(run))
      ensures CM.SidecarsIn(containers.journal) == CM.SidecarsIn(old(containers.journal)) + launched
      ensures
        var base, v := old(containers.daemon.ViewOf(run)), containers.daemon.ViewOf(run);
        match r {
          case Failure =>
            && ((v == base && launched == []) || Restored(v, base, run, lost))
            && LeftBehind(run, lost, launched)
            && (Distinct(NamesOf(ServicesOf(env))) ==> lost == map[])
            && (Distinct(NamesOf(ServicesOf(env))) && !base.network ==> v == base)
          case Success(sc) =>
            && fresh(sc) && sc.run == run && Tracks(sc, base, CM.SidecarsIn(old(containers.journal))) && Ready(sc)
            && launched == sc.names == NamesOf(ServicesOf(env))
            && sc.networkUp == (sc.names != [] || containers.daemon.deployment.isolateRuns)
            && (sc.networkUp ==> v.network)
            && (sc.networkUp ==>
                  var d := containers.daemon.deployment; v.api == (d.isolateRuns && d.apiContainerName != ""))
            && (!sc.networkUp ==> v == base)
        }
    {
      hide RecordsOk, Counted, Distinct, CM.SidecarsIn, SeenReady, LeftBehind;
      ghost var base, earlier := containers.daemon.ViewOf(run), CM.SidecarsIn(containers.journal);
      lost, launched := map[], [];
      NothingLeftBehind(run);
      ViewIsOk(run);
      var sc := new SidecarContext(run);
      EmptyRecords(run, base);
      NetworkKeepsCover(base);
      hide PlusMade, ViewOk;
      assert earlier + [] == earlier;
      var services := ServicesOf(env);
      if |services| == 0 && !containers.daemon.deployment.isolateRuns {
        return Success(sc), lost, launched;
      }
      var created := containers.CreateNetwork(run);
      if !created {
        return Failure, lost, launched;
      }
      sc.networkUp := true;
      var up := BringUp(sc, services, base, earlier);
      launched := sc.names;
      if !up {
        lost := Abandon(sc, services, base);
        return Failure, lost, launched;
      }
      r := Success(sc);
    }

    /** The rollback of a launch, and what it leaves of it. */
    method Abandon(sc: SidecarContext, ghost services: seq<Service>, ghost base: View)
      returns (ghost lost: map<ContainerId, Container>)
      requires containers.daemon.Valid() && sc.Valid() && sc.Tallied() && sc.names <= NamesOf(services)
      requires sc.Covers(containers.daemon.ViewOf(sc.run), base) && ViewOk(containers.daemon.deployment, sc.run, base)
      requires sc.networkUp && containers.daemon.ViewOf(sc.run).network
      modifies containers.daemon
      ensures containers.daemon.Valid() && containers.daemon.Onward(sc.run)
      ensures Restored(containers.daemon.ViewOf(sc.run), base, sc.run, lost) && LeftBehind(sc.run, lost, sc.names)
      ensures Distinct(NamesOf(services)) ==>
        lost == map[] && (!base.network ==> containers.daemon.ViewOf(sc.run) == base)
    {
      hide RecordsOk, Counted, PlusMade, Distinct, LeftBehind, Restored, ViewOk;
      LostAsLaunched(sc.run, sc.made, sc.containerIDs, sc.names);
      Rollback(sc, base);
      lost := sc.made - sc.containerIDs.Values;
      NothingLost(sc, base, services);
    }

    lemma NetworkKeepsCover(base: View)
      requires PlusMade(base, base, map[])
      ensures PlusMade(base.(network := true), base, map[])
    {
    }

    lemma NothingLeftBehind(run: RunId)
      ensures LeftBehind(run, map[], [])
    {
      NothingCounted();
    }

    /** After a rollback: distinct names lose nothing, and a run without a network before is as it was. */
    lemma NothingLost(sc: SidecarContext, base: View, services: seq<Service>)
      requires sc.Valid() && sc.names <= NamesOf(services)
      requires ViewOk(containers.daemon.deployment, sc.run, base)
      requires Restored(containers.daemon.ViewOf(sc.run), base, sc.run, sc.made - sc.containerIDs.Values)
      ensures Distinct(NamesOf(services)) ==> sc.made - sc.containerIDs.Values == map[]
      ensures Distinct(NamesOf(services)) && !base.network ==> containers.daemon.ViewOf(sc.run) == base
    {
      var lost := sc.made - sc.containerIDs.Values;
      if Distinct(NamesOf(services)) {
        DistinctPrefix(sc.names, NamesOf(services));
        assert lost.Keys == LostOf(sc.made, sc.containerIDs);
        if !base.network {
          RestoredMeansUnchanged(containers.daemon.ViewOf(sc.run), base, containers.daemon.deployment, sc.run, lost);
        }
      }
    }

    lemma ViewIsOk(run: RunId)
      requires containers.daemon.Valid()
      ensures ViewOk(containers.daemon.deployment, run, containers.daemon.ViewOf(run))
    {
    }

    method ConnectApi(run: RunId) returns (ok: bool)
      requires containers.daemon.Valid()
      modifies containers.daemon
      ensures containers.daemon.Valid()
      ensures
        var v, w := old(containers.daemon.ViewOf(run)), containers.daemon.ViewOf(run);
        w == v.(api := w.api)
      ensures ok ==> containers.daemon.ViewOf(run).api == containers.daemon.deployment.AttachesApi()
      ensures containers.daemon.Onward(run)
      ensures !ok && old(containers.daemon.ViewOf(run)).network ==>
        containers.Hindered(run, old(containers.daemon.refused[run]))
    {
      ViewIsOk(run);
      if !containers.daemon.deployment.AttachesApi() {
        return true;
      }
      ok := containers.ConnectApi(run);
    }

    method LaunchServices(sc: SidecarContext, services: seq<Service>, ghost base: View, ghost earlier: seq<string>)
      returns (ok: bool)
      requires Configured() && Tracks(sc, base, earlier) && Ready(sc) && sc.names == []
      modifies containers.daemon, containers`journal, sc`containerIDs, sc`made, sc`names, sc`serviceAddrs
      ensures Tracks(sc, base, earlier) && old(containers.journal) <= containers.journal
      ensures containers.daemon.ViewOf(sc.run).network == old(containers.daemon.ViewOf(sc.run)).network
      ensures containers.daemon.ViewOf(sc.run).api == old(containers.daemon.ViewOf(sc.run)).api
      ensures sc.names <= NamesOf(services) && containers.daemon.Onward(sc.run)
      ensures !ok ==> ComesToGrief(sc.run) || !old(containers.daemon.ViewOf(sc.run)).network
      ensures ok ==> sc.names == NamesOf(services) && Ready(sc)
    {
      hide RecordsOk, Counted, PlusMade, ViewOk, CM.SidecarsIn, SeenReady;
      for i := 0 to |services|
        invariant Tracks(sc, base, earlier) && Ready(sc) && old(containers.journal) <= containers.journal
        invariant containers.daemon.ViewOf(sc.run).network == old(containers.daemon.ViewOf(sc.run)).network
        invariant containers.daemon.ViewOf(sc.run).api == old(containers.daemon.ViewOf(sc.run)).api
        invariant sc.names == NamesOf(services)[..i] && containers.daemon.Onward(sc.run)
      {
        var launched := LaunchService(sc, services[i], base, earlier);
        if !launched {
          return false;
        }
      }
      ok := true;
    }
  }

  /**
   What repeated names leave behind: only sidecars, on the run network under their service's
   name, one fewer per name than were launched under it - so none exactly when no name
   was launched twice.
   */
  ghost predicate LeftBehind(run: RunId, lost: map<ContainerId, Container>, launched: seq<string>) {
    && (forall id :: id in lost ==>
          lost[id].role.Sidecar? && lost[id].endpoints == map[RunNetwork(run) := lost[id].role.service])
    && (forall name :: |MadeFor(lost, name)| == if name in launched then multiset(launched)[name] - 1 else 0)
    && (lost == map[] <==> Distinct(launched))
  }

  lemma LostOfOneName(made: map<ContainerId, Container>, ids: map<string, ContainerId>, name: string)
    requires Named(made, ids)
    ensures
      var lost := made - ids.Values;
      && |MadeFor(lost, name)| == |MadeFor(made, name)| - (if name in ids then 1 else 0)
      && (name in ids ==> ids[name] in MadeFor(made, name))
  {
    var lost := made - ids.Values;
    if name in ids {
      assert MadeFor(lost, name) == MadeFor(made, name) - {ids[name]};
    } else {
      assert MadeFor(lost, name) == MadeFor(made, name);
    }
  }

  lemma LostAsLaunched(run: RunId, made: map<ContainerId, Container>, ids: map<string, ContainerId>, names: seq<string>)
    requires RecordsOk(run, made, ids, names) && Counted(made, names)
    ensures LeftBehind(run, made - ids.Values, names)
  {
    var lost := made - ids.Values;
    assert lost.Keys == LostOf(made, ids);
    forall name ensures |MadeFor(lost, name)| == if name in names then multiset(names)[name] - 1 else 0 {
      LostOfOneName(made, ids, name);
    }
    hide MadeFor, Distinct;
  }

  lemma WithoutOneMore(v: View, ids: set<ContainerId>, id: ContainerId)
    ensures WithoutContainers(WithoutContainers(v, ids), {id}) == WithoutContainers(v, ids + {id})
  {
    assert v.containers - ids - {id} == v.containers - (ids + {id});
  }

  /**
   The view after a teardown: what was there before plus the lost containers, no API
   endpoint, and a network only if some container left is still attached to it.
   */
  ghost predicate Restored(w: View, base: View, run: RunId, lost: map<ContainerId, Container>) {
    && lost.Keys !! base.containers.Keys
    && w.containers == base.containers + lost
    && base.started <= w.started <= base.started + lost.Keys
    && !w.api && (w.network <==> Attached(w.containers, RunNetwork(run)))
  }

  lemma EmptyRecords(run: RunId, base: View)
    requires base.started <= base.containers.Keys
    ensures RecordsOk(run, map[], map[], []) && PlusMade(base, base, map[]) && Counted(map[], [])
  {
    NothingCounted();
    hide Counted;
  }

  lemma NothingCounted()
    ensures Counted(map[], [])
  {
    assert forall name :: MadeFor(map[], name) == {};
  }

  lemma DistinctPrefix(names: seq<string>, all: seq<string>)
    requires names <= all && Distinct(all)
    ensures Distinct(names)
  {
  }

  /** With nothing lost and no network there before, everything is as before. */
  lemma RestoredMeansUnchanged(w: View, base: View, d: Deployment, run: RunId, lost: map<ContainerId, Container>)
    requires Restored(w, base, run, lost) && lost == map[] && ViewOk(d, run, base) && !base.network
    ensures w == base
  {
    assert base.containers + lost == base.containers;
  }
}
