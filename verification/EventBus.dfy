/**
 The Postgres event bus: project subscriptions, an idempotent cleanup per
 subscription, Close, and the listener goroutine that dispatches notifications.

 `Registry` is what the mutex guards, with the channels it has handed out, and each
 `...Region` function is one stretch of code that runs under the lock (or, for
 `Offer`, one non-blocking send outside it).  The class `EventBus` updates the
 fields in place and is proved against those functions.
 */
module EventBus {
  import opened Options

  type ProjectId = string
  type ChanId = nat

  const NOTIFY_BUFFER_SIZE := 100

  datatype Event = Event(id: string, project: ProjectId)

  /** One non-blocking send to a channel that held `held` items at that moment. */
  datatype Offer = Offer(event: Event, held: nat) {
    predicate Dropped() { held >= NOTIFY_BUFFER_SIZE }
  }

  /**
   A subscriber's channel.  `since` is the number of events dispatched before it was
   created, `offers` the sends made to it, `received` what its subscriber has read,
   and `cleaned` whether its own cleanup has run.
   */
  datatype Chan = Chan(
    project: ProjectId, since: nat, open: bool, cleaned: bool,
    buffer: seq<Event>, received: seq<Event>, offers: seq<Offer>)

  datatype Registry = Registry(
    subscribers: map<ProjectId, seq<ChanId>>,
    closedChans: set<ChanId>,
    chans: seq<Chan>,
    listening: bool,
    closed: bool,
    history: seq<Event>)   // every event dispatched so far

  const EMPTY_REGISTRY := Registry(map[], {}, [], false, false, [])

  function SubscribersOf(m: map<ProjectId, seq<ChanId>>, project: ProjectId): seq<ChanId> {
    if project in m then m[project] else []
  }

  /** The list without the first occurrence of `ch`. */
  function Without(chans: seq<ChanId>, ch: ChanId): seq<ChanId> {
    if chans == [] then []
    else if chans[0] == ch then chans[1..]
    else [chans[0]] + Without(chans[1..], ch)
  }

  /** removeSubscriber */
  function Unregister(m: map<ProjectId, seq<ChanId>>, project: ProjectId, ch: ChanId): map<ProjectId, seq<ChanId>> {
    var left := Without(SubscribersOf(m, project), ch);
    if left == [] then m - {project} else m[project := left]
  }

  function SubscribeRegion(r: Registry, project: ProjectId, listenOk: bool): (Registry, Option<ChanId>) {
    if r.closed || (!r.listening && !listenOk) then (r, None)
    else (
      r.(listening := true,
         subscribers := r.subscribers[project := SubscribersOf(r.subscribers, project) + [|r.chans|]],
         chans := r.chans + [Chan(project, |r.history|, true, false, [], [], [])]),
      Some(|r.chans|))
  }

  function CleanupRegion(r: Registry, ch: ChanId): Registry
    requires ch < |r.chans|
  {
    r.(subscribers := Unregister(r.subscribers, r.chans[ch].project, ch),
       closedChans := r.closedChans + {ch},
       chans := r.chans[ch := r.chans[ch].(open := if ch in r.closedChans then r.chans[ch].open else false,
                                           cleaned := true)])
  }

  predicate Registered(r: Registry, ch: ChanId) {
    exists project :: project in r.subscribers && ch in r.subscribers[project]
  }

  /** The last locked region of Close: close what is still open and empty the map. */
  ghost function CloseRegion(r: Registry): Registry {
    r.(subscribers := map[],
       closedChans := r.closedChans + (set ch: nat | ch < |r.chans| && Registered(r, ch)),
       chans := seq(|r.chans|, i requires 0 <= i < |r.chans| =>
         if Registered(r, i) && i !in r.closedChans then r.chans[i].(open := false) else r.chans[i]))
  }

  /** handleNotification's locked region: record the event and copy the subscriber list. */
  function SnapshotRegion(r: Registry, event: Event): (Registry, seq<ChanId>) {
    (r.(history := r.history + [event]), SubscribersOf(r.subscribers, event.project))
  }

  /** One turn of handleNotification's loop, outside the lock. */
  function OfferTo(c: Chan, event: Event): Chan {
    var c' := c.(offers := c.offers + [Offer(event, |c.buffer|)]);
    if |c.buffer| < NOTIFY_BUFFER_SIZE then c'.(buffer := c.buffer + [event]) else c'
  }

  function Take(c: Chan): Chan
    requires c.buffer != []
  {
    c.(buffer := c.buffer[1..], received := c.received + [c.buffer[0]])
  }

  // ----- The registry's invariant -----

  ghost predicate NoDuplicates(s: seq<ChanId>) {
    forall i, j :: 0 <= i < j < |s| ==> s[i] != s[j]
  }

  ghost predicate ListsOk(r: Registry) {
    forall project :: project in r.subscribers ==>
      && r.subscribers[project] != [] && NoDuplicates(r.subscribers[project])
      && forall ch :: ch in r.subscribers[project] ==> ch < |r.chans| && r.chans[ch].project == project
  }

  /** A created channel is registered if and only if it is open, and `closedChans` is exactly the closed ones. */
  ghost predicate LifecycleOk(r: Registry, ch: ChanId)
    requires ch < |r.chans|
  {
    var c := r.chans[ch];
    && (c.open <==> ch in SubscribersOf(r.subscribers, c.project))
    && (c.open <==> ch !in r.closedChans)
    && (c.cleaned ==> !c.open)
    && c.since <= |r.history|
  }

  ghost predicate RegistryOk(r: Registry) {
    && ListsOk(r) && (forall ch :: ch in r.closedChans ==> ch < |r.chans|)
    && forall ch :: 0 <= ch < |r.chans| ==> LifecycleOk(r, ch)
  }

  lemma {:induction false} WithoutMembers(s: seq<ChanId>, ch: ChanId)
    requires NoDuplicates(s)
    ensures NoDuplicates(Without(s, ch))
    ensures forall x :: x in Without(s, ch) <==> x in s && x != ch
  {
    if s != [] {
      var rest := s[1..];
      assert NoDuplicates(rest);
      WithoutMembers(rest, ch);
      assert forall x :: x in s <==> x == s[0] || x in rest;
      assert s[0] !in rest;
      assert s[0] != ch ==> Without(s, ch) == [s[0]] + Without(rest, ch);
    }
  }

  lemma RegisteredIsListed(r: Registry, ch: ChanId)
    requires ListsOk(r) && ch < |r.chans|
    ensures Registered(r, ch) <==> ch in SubscribersOf(r.subscribers, r.chans[ch].project)
  {
  }

  lemma SubscribeKeepsRegistry(r: Registry, project: ProjectId, listenOk: bool)
    requires RegistryOk(r)
    ensures RegistryOk(SubscribeRegion(r, project, listenOk).0)
  {
    var t := SubscribeRegion(r, project, listenOk).0;
    if t != r {
      var listed := SubscribersOf(r.subscribers, project);
      forall p | p in t.subscribers
        ensures t.subscribers[p] != [] && NoDuplicates(t.subscribers[p])
        ensures forall ch :: ch in t.subscribers[p] ==> ch < |t.chans| && t.chans[ch].project == p
      {
        if p == project { assert |r.chans| !in listed; }
      }
      forall ch | 0 <= ch < |t.chans| ensures LifecycleOk(t, ch) {
        if ch < |r.chans| { assert LifecycleOk(r, ch); }
      }
    }
  }

  lemma CleanupKeepsRegistry(r: Registry, ch: ChanId)
    requires RegistryOk(r) && ch < |r.chans|
    ensures RegistryOk(CleanupRegion(r, ch))
    ensures ch in r.closedChans || r.chans[ch].open
  {
    var t := CleanupRegion(r, ch);
    var project := r.chans[ch].project;
    var list := SubscribersOf(r.subscribers, project);
    WithoutMembers(list, ch);
    assert LifecycleOk(r, ch);
    forall x | 0 <= x < |t.chans| ensures LifecycleOk(t, x) {
      assert LifecycleOk(r, x);
    }
  }

  /** A repeated cleanup finds nothing left to do. */
  lemma CleanupIsIdempotent(r: Registry, ch: ChanId)
    requires RegistryOk(r) && ch < |r.chans|
    ensures CleanupRegion(CleanupRegion(r, ch), ch) == CleanupRegion(r, ch)
  {
    var project := r.chans[ch].project;
    var list := SubscribersOf(r.subscribers, project);
    WithoutMembers(list, ch);
    WithoutAbsent(Without(list, ch), ch);
  }

  lemma CleanedIsGone(r: Registry, ch: ChanId)
    requires RegistryOk(r) && ch < |r.chans|
    ensures var t := CleanupRegion(r, ch); !t.chans[ch].open && !Registered(t, ch)
  {
    CleanupKeepsRegistry(r, ch);
    assert LifecycleOk(r, ch) && LifecycleOk(CleanupRegion(r, ch), ch);
    RegisteredIsListed(CleanupRegion(r, ch), ch);
  }

  lemma {:induction false} WithoutAbsent(s: seq<ChanId>, ch: ChanId)
    requires ch !in s
    ensures Without(s, ch) == s
  {
    if s != [] {
      WithoutAbsent(s[1..], ch);
    }
  }

  lemma CloseKeepsRegistry(r: Registry)
    requires RegistryOk(r)
    ensures RegistryOk(CloseRegion(r))
    ensures CloseRegion(r).subscribers == map[]
    ensures forall ch :: 0 <= ch < |r.chans| ==>
      !CloseRegion(r).chans[ch].open && CloseRegion(r).chans[ch] == r.chans[ch].(open := false)
    ensures forall ch :: 0 <= ch < |r.chans| && Registered(r, ch) ==> ch in r.closedChans || r.chans[ch].open
  {
    forall ch | 0 <= ch < |r.chans|
      ensures LifecycleOk(CloseRegion(r), ch)
      ensures CloseRegion(r).chans[ch] == r.chans[ch].(open := false)
      ensures Registered(r, ch) ==> ch in r.closedChans || r.chans[ch].open
    {
      assert LifecycleOk(r, ch);
      RegisteredIsListed(r, ch);
    }
  }

  // ----- The object -----

  lemma {:induction false} WithoutAt(s: seq<ChanId>, ch: ChanId, i: nat)
    requires i <= |s| && ch !in s[..i] && (i < |s| ==> s[i] == ch)
    ensures Without(s, ch) == if i < |s| then s[..i] + s[i + 1..] else s
  {
    if i > 0 {
      assert s[0] in s[..i];
      assert s[1..][..i - 1] == s[..i][1..];
      WithoutAt(s[1..], ch, i - 1);
      assert s == [s[0]] + s[1..];
      if i < |s| { assert s[..i] + s[i + 1..] == [s[0]] + (s[1..][..i - 1] + s[1..][i..]); }
    }
  }

  class EventBus {
    var subscribers: map<ProjectId, seq<ChanId>>
    var closedChans: set<ChanId>
    var chans: seq<Chan>         // the channels behind the ids
    var listening: bool
    var closed: bool
    var history: seq<Event>      // bookkeeping: the events dispatched so far

    ghost function Contents(): Registry
      reads this
    {
      Registry(subscribers, closedChans, chans, listening, closed, history)
    }

    ghost predicate Valid()
      reads this
    {
      RegistryOk(Contents())
    }

    constructor ()
      ensures Valid() && Contents() == EMPTY_REGISTRY
    {
      subscribers, closedChans, chans, listening, closed, history := map[], {}, [], false, false, [];
    }

    method Subscribe(project: ProjectId, listenOk: bool) returns (ch: Option<ChanId>)
      requires Valid()
      modifies this
      ensures Valid() && (Contents(), ch) == SubscribeRegion(old(Contents()), project, listenOk)
    {
      SubscribeKeepsRegistry(Contents(), project, listenOk);
      if closed {
        return None;
      }
      if !listening {
        if !listenOk {
          return None;
        }
        listening := true;
      }
      ch := Some(|chans|);
      subscribers := subscribers[project := SubscribersOf(subscribers, project) + [|chans|]];
      chans := chans + [Chan(project, |history|, true, false, [], [], [])];
    }

    method RemoveSubscriber(project: ProjectId, ch: ChanId)
      modifies this`subscribers
      ensures subscribers == Unregister(old(subscribers), project, ch)
    {
      var list := SubscribersOf(subscribers, project);
      var i := 0;
      while i < |list| && list[i] != ch
        invariant i <= |list| && ch !in list[..i]
      {
        i := i + 1;
      }
      WithoutAt(list, ch, i);
      if i < |list| {
        subscribers := subscribers[project := list[..i] + list[i + 1..]];
      }
      if |SubscribersOf(subscribers, project)| == 0 {
        subscribers := subscribers - {project};
      }
    }

    /** The cleanup closure; it may be called any number of times. */
    method Cleanup(ch: ChanId)
      requires Valid() && ch < |chans|
      modifies this
      ensures Valid() && Contents() == CleanupRegion(old(Contents()), ch)
      ensures !chans[ch].open && !Registered(Contents(), ch)
      ensures CleanupRegion(Contents(), ch) == Contents()   // so calling it again changes nothing
    {
      ghost var before := Contents();
      CleanupKeepsRegistry(before, ch);
      CleanupIsIdempotent(before, ch);
      CleanedIsGone(before, ch);
      RemoveSubscriber(chans[ch].project, ch);
      if ch !in closedChans {
        chans := chans[ch := chans[ch].(open := false)];
        closedChans := closedChans + {ch};
      }
      chans := chans[ch := chans[ch].(cleaned := true)];
      assert closedChans == CleanupRegion(before, ch).closedChans;
      assert chans == CleanupRegion(before, ch).chans;
    }

    /** Close's last locked region: every channel still open is closed, each exactly once. */
    method CloseChannels()
      requires Valid()
      modifies this
      ensures Valid() && Contents() == CloseRegion(old(Contents()))
    {
      ghost var before := Contents();
      CloseKeepsRegistry(before);
      assert Closing(before, {}, {});
      hide RegistryOk, CloseRegion, Closing;
      ghost var visited: set<ChanId>, done: set<ProjectId> := {}, {};
      while subscribers.Keys != {}
        invariant Closing(before, visited, done)
        invariant listening == before.listening && closed == before.closed && history == before.history
        decreases subscribers.Keys
      {
        var project :| project in subscribers.Keys;
        visited := CloseProject(project, before, visited, done);
        done := done + {project};
      }
      AllClosed(before, visited, done);
    }

    /** The projects in `done` are gone from the map and their channels, the `visited` ones, are closed. */
    ghost predicate Closing(before: Registry, visited: set<ChanId>, done: set<ProjectId>)
      reads this`subscribers, this`chans, this`closedChans
    {
      && subscribers == before.subscribers - done && done <= before.subscribers.Keys
      && ClosedSoFar(before, visited) && AllRegistered(before, visited)
      && forall p :: p in done ==> Members(before.subscribers[p]) <= visited
    }

    method CloseProject(project: ProjectId, ghost before: Registry, ghost visited: set<ChanId>,
                        ghost done: set<ProjectId>)
      returns (ghost visited': set<ChanId>)
      requires RegistryOk(before) && Closing(before, visited, done) && project in subscribers
      modifies this`subscribers, this`chans, this`closedChans
      ensures Closing(before, visited', done + {project}) && subscribers == old(subscribers) - {project}
    {
      hide RegistryOk, AllRegistered, ClosedSoFar, Members;
      visited' := CloseList(subscribers[project], before, visited, project);
      subscribers := subscribers - {project};
    }

    lemma AllClosed(before: Registry, visited: set<ChanId>, done: set<ProjectId>)
      requires RegistryOk(before) && Closing(before, visited, done) && subscribers.Keys == {}
      requires listening == before.listening && closed == before.closed && history == before.history
      ensures Contents() == CloseRegion(before)
    {
      assert forall p :: p in before.subscribers && p !in done ==> p in subscribers.Keys;
      assert subscribers == map[] && done == before.subscribers.Keys;
      forall ch: nat | ch < |before.chans| && Registered(before, ch) ensures ch in visited {
        var p :| p in before.subscribers && ch in before.subscribers[p];
        assert ch in Members(before.subscribers[p]);
      }
      assert forall ch :: ch in visited ==> ch < |before.chans|;
      assert closedChans == CloseRegion(before).closedChans;
      assert chans == CloseRegion(before).chans;
    }

    ghost function Members(list: seq<ChanId>): set<ChanId> {
      set ch | ch in list
    }

    ghost predicate AllRegistered(before: Registry, visited: set<ChanId>) {
      forall ch :: ch in visited ==> Registered(before, ch)
    }

    ghost predicate ClosedSoFar(before: Registry, visited: set<ChanId>)
      reads this`chans, this`closedChans
    {
      && closedChans == before.closedChans + visited
      && |chans| == |before.chans|
      && forall ch :: 0 <= ch < |chans| ==>
           chans[ch] == if ch in visited && ch !in before.closedChans then before.chans[ch].(open := false)
             else before.chans[ch]
    }

    method CloseList(list: seq<ChanId>, ghost before: Registry, ghost visited: set<ChanId>, ghost project: ProjectId)
      returns (ghost visited': set<ChanId>)
      requires RegistryOk(before) && project in before.subscribers && list == before.subscribers[project]
      requires ClosedSoFar(before, visited) && AllRegistered(before, visited)
      modifies this`chans, this`closedChans
      ensures ClosedSoFar(before, visited')
      ensures visited' == visited + Members(list)
      ensures AllRegistered(before, visited')
    {
      visited' := visited;
      for i := 0 to |list|
        invariant ClosedSoFar(before, visited')
        invariant visited' == visited + Members(list[..i])
      {
        var ch := list[i];
        assert list[..i + 1] == list[..i] + [ch] && ch in list;
        assert Members(list[..i + 1]) == Members(list[..i]) + {ch};
        if ch !in closedChans {
          chans := chans[ch := chans[ch].(open := false)];
          closedChans := closedChans + {ch};
        }
        visited' := visited' + {ch};
      }
      assert list[..|list|] == list;
    }

    /**
     One notification that nothing interrupts: every subscriber of its project is
     offered the event exactly once, and nobody else is touched.
     */
    method HandleNotification(event: Event)
      requires Valid()
      modifies this`chans, this`history
      ensures history == old(history) + [event] && |chans| == |old(chans)|
      ensures forall ch :: 0 <= ch < |chans| ==>
        chans[ch] == if old(chans)[ch].open && old(chans)[ch].project == event.project
                     then OfferTo(old(chans)[ch], event) else old(chans)[ch]
    {
      ghost var before := chans;
      var copy := SubscribersOf(subscribers, event.project);
      assert forall ch :: ch in copy ==> ch < |before| && before[ch].project == event.project;
      forall ch | 0 <= ch < |before|
        ensures ch in copy <==> before[ch].open && before[ch].project == event.project
      {
        assert LifecycleOk(Contents(), ch);
      }
      history := history + [event];
      for i := 0 to |copy|
        invariant |chans| == |before| && history == old(history) + [event]
        invariant forall ch :: 0 <= ch < |chans| ==>
          chans[ch] == if ch in copy[..i] then OfferTo(before[ch], event) else before[ch]
      {
        var ch := copy[i];
        assert copy[..i + 1] == copy[..i] + [ch] && ch in copy;
        assert ch !in copy[..i];
        chans := chans[ch := OfferTo(chans[ch], event)];
      }
      assert copy[..|copy|] == copy;
    }
  }
}
