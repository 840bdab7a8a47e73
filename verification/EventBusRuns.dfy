/**
 Every interleaving of Subscribe, repeated cleanups, any number of Close calls,
 dispatch and consumption on one event bus.  Dispatch is split where the original
 releases its lock: a snapshot of the subscriber list, then one send at a time.
 */
module EventBusRuns {
  import opened Options
  import opened EventBus

  datatype Listener =
    | NotStarted
    | Listening
    | Dispatching(event: Event, rest: seq<ChanId>)   // the sends still to make
    | Exited

  /** The one Close call that finds the bus open; later ones return at once. */
  datatype Closer = NotClosing | Draining(wasListening: bool) | Closed

  datatype Fault = NoFault | SendOnClosed(ch: ChanId) | CloseOfClosed

  datatype State = State(registry: Registry, listener: Listener, closer: Closer, fault: Fault)

  const INIT := State(EMPTY_REGISTRY, NotStarted, NotClosing, NoFault)

  datatype Action =
    | Subscribe(project: ProjectId, listenOk: bool)
    | Cleanup(ch: ChanId)
    | BeginClose
    | FinishClose
    | Notify(event: Event)
    | SendNext
    | StopListening       // stopCh seen, or the connection is lost for good
    | Consume(ch: ChanId)

  predicate ChanExists(s: State, ch: ChanId) {
    ch < |s.registry.chans|
  }

  predicate Enabled(s: State, a: Action) {
    s.fault.NoFault? &&
    match a
    case Subscribe(_, _) => true
    case Cleanup(ch) => ChanExists(s, ch)
    case BeginClose => true
    case FinishClose => s.closer.Draining? && (s.closer.wasListening ==> s.listener.Exited?)
    case Notify(_) => s.listener.Listening?
    case SendNext =>
      s.listener.Dispatching? && s.listener.rest != [] && ChanExists(s, s.listener.rest[0])
    case StopListening => s.listener.Listening?
    case Consume(ch) => ChanExists(s, ch) && s.registry.chans[ch].buffer != []
  }

  function AfterSend(event: Event, rest: seq<ChanId>): Listener {
    if rest == [] then Listening else Dispatching(event, rest)
  }

  ghost function Next(s: State, a: Action): State {
    if !Enabled(s, a) then s else
    var r := s.registry;
    match a
    case Subscribe(project, listenOk) =>
      var (r', ch) := SubscribeRegion(r, project, listenOk);
      s.(registry := r', listener := if ch.Some? && s.listener.NotStarted? then Listening else s.listener)
    case Cleanup(ch) =>
      if ch !in r.closedChans && !r.chans[ch].open then s.(fault := CloseOfClosed)
      else s.(registry := CleanupRegion(r, ch))
    case BeginClose =>
      if r.closed then s
      else s.(registry := r.(closed := true), closer := Draining(r.listening))
    case FinishClose =>
      if exists ch: nat :: ch < |r.chans| && Registered(r, ch) && ch !in r.closedChans && !r.chans[ch].open
      then s.(fault := CloseOfClosed)
      else s.(registry := CloseRegion(r), closer := Closed)
    case Notify(event) =>
      var (r', rest) := SnapshotRegion(r, event);
      s.(registry := r', listener := AfterSend(event, rest))
    case SendNext =>
      var ch := s.listener.rest[0];
      if !r.chans[ch].open then s.(fault := SendOnClosed(ch))
      else s.(registry := r.(chans := r.chans[ch := OfferTo(r.chans[ch], s.listener.event)]),
              listener := AfterSend(s.listener.event, s.listener.rest[1..]))
    case StopListening => s.(listener := Exited)
    case Consume(ch) => s.(registry := r.(chans := r.chans[ch := Take(r.chans[ch])]))
  }

  ghost function Run(s: State, actions: seq<Action>): State
    decreases |actions|
  {
    if actions == [] then s else Run(Next(s, actions[0]), actions[1..])
  }

  // ----- Delivery histories -----

  function EventsFor(history: seq<Event>, project: ProjectId): seq<Event> {
    if history == [] then []
    else
      var last := history[|history| - 1];
      EventsFor(history[..|history| - 1], project) + if last.project == project then [last] else []
  }

  function EventsOf(offers: seq<Offer>): seq<Event> {
    if offers == [] then [] else EventsOf(offers[..|offers| - 1]) + [offers[|offers| - 1].event]
  }

  /** The offered events that were not dropped for a full buffer. */
  function Kept(offers: seq<Offer>): seq<Event> {
    if offers == [] then []
    else
      var last := offers[|offers| - 1];
      Kept(offers[..|offers| - 1]) + if last.Dropped() then [] else [last.event]
  }

  function InFlight(l: Listener, ch: ChanId): seq<Event> {
    if l.Dispatching? && ch in l.rest then [l.event] else []
  }

  // ----- Invariant -----

  ghost predicate DeliveryOk(s: State, ch: ChanId)
    requires ChanExists(s, ch)
  {
    var c := s.registry.chans[ch];
    && c.since <= |s.registry.history|
    && |c.buffer| <= NOTIFY_BUFFER_SIZE
    && c.received + c.buffer == Kept(c.offers)
    && (forall i :: 0 <= i < |c.offers| ==> c.offers[i].held <= NOTIFY_BUFFER_SIZE)
    && (!c.cleaned ==>
          EventsOf(c.offers) + InFlight(s.listener, ch) == EventsFor(s.registry.history[c.since..], c.project))
    && (!c.open ==> c.cleaned || s.closer.Closed?)
  }

  ghost predicate ListenerOk(s: State) {
    && (s.listener.NotStarted? <==> !s.registry.listening)
    && (s.listener.Dispatching? ==>
          && s.listener.rest != [] && NoDuplicates(s.listener.rest)
          && forall ch :: ch in s.listener.rest ==>
               ChanExists(s, ch) && s.registry.chans[ch].project == s.listener.event.project)
  }

  ghost predicate CloserOk(s: State) {
    && (s.closer.NotClosing? <==> !s.registry.closed)
    && (s.closer.Draining? ==> s.closer.wasListening == s.registry.listening)
    && (s.closer.Closed? ==>
          (s.listener.NotStarted? || s.listener.Exited?) && s.registry.subscribers == map[])
  }

  ghost predicate FaultOk(s: State) {
    && !s.fault.CloseOfClosed?
    && (s.fault.SendOnClosed? ==>
          ChanExists(s, s.fault.ch) && s.registry.chans[s.fault.ch].cleaned && !s.closer.Closed?)
  }

  ghost predicate Inv(s: State) {
    && RegistryOk(s.registry) && ListenerOk(s) && CloserOk(s) && FaultOk(s)
    && forall ch :: 0 <= ch < |s.registry.chans| ==> DeliveryOk(s, ch)
  }

  lemma SubscribeKeepsInv(s: State, project: ProjectId, listenOk: bool)
    requires Inv(s) && s.fault.NoFault?
    ensures Inv(Next(s, Subscribe(project, listenOk)))
  {
    var t := Next(s, Subscribe(project, listenOk));
    SubscribeKeepsRegistry(s.registry, project, listenOk);
    forall ch | 0 <= ch < |t.registry.chans| ensures DeliveryOk(t, ch) {
      if ch < |s.registry.chans| { assert DeliveryOk(s, ch); }
    }
  }

  lemma CleanupKeepsInv(s: State, ch: ChanId)
    requires Inv(s) && s.fault.NoFault?
    ensures Inv(Next(s, Cleanup(ch)))
  {
    if ChanExists(s, ch) {
      var t := Next(s, Cleanup(ch));
      CleanupKeepsRegistry(s.registry, ch);
      forall x | 0 <= x < |t.registry.chans| ensures DeliveryOk(t, x) {
        assert DeliveryOk(s, x);
      }
    }
  }

  lemma FinishCloseKeepsInv(s: State)
    requires Inv(s) && Enabled(s, FinishClose)
    ensures Inv(Next(s, FinishClose))
  {
    var t := Next(s, FinishClose);
    CloseKeepsRegistry(s.registry);
    forall x | 0 <= x < |t.registry.chans| ensures DeliveryOk(t, x) {
      assert DeliveryOk(s, x);
    }
  }

  lemma NotifyKeepsInv(s: State, event: Event)
    requires Inv(s) && Enabled(s, Notify(event))
    ensures Inv(Next(s, Notify(event)))
  {
    var t := Next(s, Notify(event));
    var (r', rest) := SnapshotRegion(s.registry, event);
    forall x | 0 <= x < |t.registry.chans| ensures DeliveryOk(t, x) && LifecycleOk(t.registry, x) {
      assert DeliveryOk(s, x) && LifecycleOk(s.registry, x);
      var c := s.registry.chans[x];
      var h, h' := s.registry.history[c.since..], t.registry.history[c.since..];
      assert h' == h + [event] && h'[..|h'| - 1] == h;
    }
  }

  lemma SendKeepsDelivery(s: State, x: ChanId)
    requires Inv(s) && Enabled(s, SendNext) && s.registry.chans[s.listener.rest[0]].open && ChanExists(s, x)
    ensures DeliveryOk(Next(s, SendNext), x) && LifecycleOk(Next(s, SendNext).registry, x)
  {
    var t := Next(s, SendNext);
    var ch, rest := s.listener.rest[0], s.listener.rest;
    assert DeliveryOk(s, x) && LifecycleOk(s.registry, x) && LifecycleOk(s.registry, ch);
    assert rest == [ch] + rest[1..];
    if x == ch {
      var c, c' := s.registry.chans[ch], t.registry.chans[ch];
      assert c'.offers[..|c'.offers| - 1] == c.offers;
      assert ch !in rest[1..];
      assert InFlight(t.listener, ch) == [] && InFlight(s.listener, ch) == [s.listener.event];
      assert !c'.offers[|c.offers|].Dropped() ==>
        c'.received + c'.buffer == (c.received + c.buffer) + [s.listener.event];
    } else {
      assert x in rest <==> x in rest[1..];
    }
  }

  lemma SendKeepsInv(s: State)
    requires Inv(s) && Enabled(s, SendNext)
    ensures Inv(Next(s, SendNext))
  {
    var t := Next(s, SendNext);
    var ch, rest := s.listener.rest[0], s.listener.rest;
    assert ch in rest && DeliveryOk(s, ch) && LifecycleOk(s.registry, ch);
    forall x | 0 <= x < |t.registry.chans| ensures DeliveryOk(t, x) && LifecycleOk(t.registry, x) {
      if s.registry.chans[ch].open { SendKeepsDelivery(s, x); }
      else { assert DeliveryOk(s, x) && LifecycleOk(s.registry, x); }
    }
    assert forall x :: x in rest[1..] ==> x in rest;
  }

  lemma ConsumeKeepsInv(s: State, ch: ChanId)
    requires Inv(s) && Enabled(s, Consume(ch))
    ensures Inv(Next(s, Consume(ch)))
  {
    var t := Next(s, Consume(ch));
    forall x | 0 <= x < |t.registry.chans| ensures DeliveryOk(t, x) && LifecycleOk(t.registry, x) {
      assert DeliveryOk(s, x) && LifecycleOk(s.registry, x);
      var c := s.registry.chans[x];
      if x == ch { assert c.received + c.buffer == c.received + [c.buffer[0]] + c.buffer[1..]; }
    }
  }

  lemma RestKeepsInv(s: State, a: Action)
    requires Inv(s) && Enabled(s, a) && (a.BeginClose? || a.StopListening?)
    ensures Inv(Next(s, a))
  {
    var t := Next(s, a);
    forall x | 0 <= x < |t.registry.chans| ensures DeliveryOk(t, x) && LifecycleOk(t.registry, x) {
      assert DeliveryOk(s, x) && LifecycleOk(s.registry, x);
    }
  }

  lemma NextKeepsInv(s: State, a: Action)
    requires Inv(s)
    ensures Inv(Next(s, a))
  {
    if Enabled(s, a) {
      match a
      case Subscribe(project, listenOk) => SubscribeKeepsInv(s, project, listenOk);
      case Cleanup(ch) => CleanupKeepsInv(s, ch);
      case FinishClose => FinishCloseKeepsInv(s);
      case Notify(event) => NotifyKeepsInv(s, event);
      case SendNext => SendKeepsInv(s);
      case Consume(ch) => ConsumeKeepsInv(s, ch);
      case _ => RestKeepsInv(s, a);
    }
  }

  lemma {:induction false} RunKeepsInv(s: State, actions: seq<Action>)
    requires Inv(s)
    ensures Inv(Run(s, actions))
    decreases |actions|
  {
    if actions != [] {
      NextKeepsInv(s, actions[0]);
      RunKeepsInv(Next(s, actions[0]), actions[1..]);
    }
  }

  lemma InitInv()
    ensures Inv(INIT)
  {
  }

  // ----- Main results -----

  /**
   The lifecycle: at every point a created channel is registered for its project if
   and only if it is open; no channel is ever closed twice; and once the first Close
   has returned every channel is closed, the map is empty and no dispatch is running.
   */
  lemma ChannelLifecycle(actions: seq<Action>)
    ensures
      var s := Run(INIT, actions);
      && (forall ch :: 0 <= ch < |s.registry.chans| ==> (s.registry.chans[ch].open <==> Registered(s.registry, ch)))
      && !s.fault.CloseOfClosed?
      && (s.closer.Closed? ==>
            && s.registry.subscribers == map[] && !s.listener.Dispatching? && !s.listener.Listening?
            && forall ch :: 0 <= ch < |s.registry.chans| ==> !s.registry.chans[ch].open)
  {
    InitInv();
    RunKeepsInv(INIT, actions);
    var s := Run(INIT, actions);
    forall ch | 0 <= ch < |s.registry.chans|
      ensures s.registry.chans[ch].open <==> Registered(s.registry, ch)
      ensures s.closer.Closed? ==> !s.registry.chans[ch].open
    {
      assert LifecycleOk(s.registry, ch);
      RegisteredIsListed(s.registry, ch);
    }
  }

  /** Once Close has begun no Subscribe succeeds again, in any continuation: no channel is ever created. */
  lemma {:induction false} NoSubscriptionAfterClose(s: State, actions: seq<Action>)
    requires s.registry.closed
    ensures Run(s, actions).registry.closed && |Run(s, actions).registry.chans| == |s.registry.chans|
    decreases |actions|
  {
    if actions != [] {
      NoSubscriptionAfterClose(Next(s, actions[0]), actions[1..]);
    }
  }

  /**
   Delivery: until its own cleanup runs, a subscriber has been offered exactly its
   project's events dispatched since it subscribed, in dispatch order and each once
   (the one still being sent excepted); what it has received followed by what is
   buffered is exactly the offers made while its buffer held fewer than 100 items.
   */
  lemma Delivery(actions: seq<Action>, ch: ChanId)
    requires ch < |Run(INIT, actions).registry.chans|
    ensures
      var s := Run(INIT, actions);
      var c := s.registry.chans[ch];
      && c.received + c.buffer == Kept(c.offers)
      && IsSubsequence(c.received + c.buffer, EventsOf(c.offers))
      && (forall i :: 0 <= i < |c.offers| ==> (c.offers[i].Dropped() <==> c.offers[i].held == 100))
      && c.since <= |s.registry.history|
      && (!c.cleaned ==>
            EventsOf(c.offers) + InFlight(s.listener, ch) == EventsFor(s.registry.history[c.since..], c.project))
  {
    InitInv();
    RunKeepsInv(INIT, actions);
    assert DeliveryOk(Run(INIT, actions), ch);
    KeptIsSubsequence(Run(INIT, actions).registry.chans[ch].offers);
  }

  /** `a` is obtained from `b` by deleting elements. */
  predicate IsSubsequence<T(==)>(a: seq<T>, b: seq<T>)
    decreases |b|
  {
    if a == [] then true
    else if b == [] then false
    else
      || IsSubsequence(a, b[..|b| - 1])
      || (a[|a| - 1] == b[|b| - 1] && IsSubsequence(a[..|a| - 1], b[..|b| - 1]))
  }

  lemma {:induction false} KeptIsSubsequence(offers: seq<Offer>)
    ensures IsSubsequence(Kept(offers), EventsOf(offers))
  {
    if offers != [] {
      var front := offers[..|offers| - 1];
      KeptIsSubsequence(front);
      var a, b := Kept(offers), EventsOf(offers);
      assert b[..|b| - 1] == EventsOf(front);
      if offers[|offers| - 1].Dropped() {
        assert a == Kept(front);
      } else {
        assert a[..|a| - 1] == Kept(front);
      }
    }
  }

  /**
   Dispatch sends outside the lock, so it can hit a closed channel, but never one
   that Close closed: a send faults if and only if the channel's own cleanup has run
   in the meantime, and never once Close has reached its last region.
   */
  lemma SendFaultsOnlyAfterOwnCleanup(actions: seq<Action>)
    requires Enabled(Run(INIT, actions), SendNext)
    ensures
      var s := Run(INIT, actions);
      var ch := s.listener.rest[0];
      && !s.closer.Closed?
      && (Next(s, SendNext).fault == SendOnClosed(ch) <==> s.registry.chans[ch].cleaned)
  {
    InitInv();
    RunKeepsInv(INIT, actions);
    var s := Run(INIT, actions);
    assert DeliveryOk(s, s.listener.rest[0]) && LifecycleOk(s.registry, s.listener.rest[0]);
  }

  /** The fault is reachable: a subscriber that cleans up between the snapshot and its send. */
  lemma CleanupDuringDispatchFaults(project: ProjectId, id: string)
    ensures
      var e := Event(id, project);
      Run(INIT, [Subscribe(project, true), Notify(e), Cleanup(0), SendNext]).fault == SendOnClosed(0)
  {
    var e := Event(id, project);
    var s1 := Next(INIT, Subscribe(project, true));
    var s2 := Next(s1, Notify(e));
    assert s2.listener == Dispatching(e, [0]);
    var s3 := Next(s2, Cleanup(0));
    assert s3.listener == Dispatching(e, [0]) && !s3.registry.chans[0].open;
    var s4 := Next(s3, SendNext);
    assert Run(s3, [SendNext]) == Run(s4, []);
    assert [Cleanup(0), SendNext][1..] == [SendNext];
    assert Run(s2, [Cleanup(0), SendNext]) == Run(s3, [SendNext]);
    assert [Notify(e), Cleanup(0), SendNext][1..] == [Cleanup(0), SendNext];
    assert Run(s1, [Notify(e), Cleanup(0), SendNext]) == Run(s2, [Cleanup(0), SendNext]);
    assert [Subscribe(project, true), Notify(e), Cleanup(0), SendNext][1..] == [Notify(e), Cleanup(0), SendNext];
  }

  // ----- Nothing gets stuck -----

  /** How many sends the dispatch under way still has to make. */
  function SendsLeft(l: Listener): nat {
    if l.Dispatching? then |l.rest| else 0
  }

  /**
   A Close that has begun can complete, from any state the bus can be in: the dispatch under way makes its sends,
   the listener stops, and the last region runs - unless one of those sends hits a cleaned-up channel.
   */
  lemma {:induction false} CloseCanComplete(s: State) returns (more: seq<Action>)
    requires Inv(s) && s.fault.NoFault? && s.closer.Draining?
    ensures var t := Run(s, more); t.closer.Closed? || t.fault.SendOnClosed?
    decreases SendsLeft(s.listener), s.listener.Listening?
  {
    var a := if s.listener.Dispatching? then SendNext else if s.listener.Listening? then StopListening else FinishClose;
    assert Enabled(s, a);
    NextKeepsInv(s, a);
    var t := Next(s, a);
    more := [a];
    if t.fault.NoFault? && t.closer.Draining? {
      hide Inv, Enabled;
      var rest := CloseCanComplete(t);
      more := [a] + rest;
      assert more[1..] == rest;
    } else {
      assert more[1..] == [] && Run(s, more) == t;
    }
  }

  /** What a channel has buffered can all be received, closed or not, and in order. */
  lemma {:induction false} BufferedCanBeReceived(s: State, ch: ChanId) returns (more: seq<Action>)
    requires s.fault.NoFault? && ChanExists(s, ch)
    ensures
      var t := Run(s, more);
      && ChanExists(t, ch) && t.registry.chans[ch].buffer == []
      && t.registry.chans[ch].received == s.registry.chans[ch].received + s.registry.chans[ch].buffer
    decreases |s.registry.chans[ch].buffer|
  {
    more := [];
    var c := s.registry.chans[ch];
    if c.buffer == [] {
      assert c.received + c.buffer == c.received;
    } else {
      var t := Next(s, Consume(ch));
      var rest := BufferedCanBeReceived(t, ch);
      more := [Consume(ch)] + rest;
      assert more[1..] == rest;
      assert (c.received + [c.buffer[0]]) + c.buffer[1..] == c.received + c.buffer;
    }
  }
}
