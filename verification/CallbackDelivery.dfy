/**
 The other half of the callback protocol: nothing keeps a report from arriving.  From any reachable
 state an admitted POST can be taken all the way to the return of its step's wait, and from the
 start every exit code can be returned.
 */
module CallbackDelivery {
  import opened Options
  import opened CallbackSystem
  import Store = StatusStore
  import Agent = AgentRunner
  import Tokens = TokenStore
  import Wait = CallbackWait

  function BackendOf(s: System, step: string): Wait.Backend
    requires step in s.processes
  {
    s.processes[step].backend
  }

  /** The method is in one of its selects on statusCh. */
  predicate Listening(s: System, step: string) {
    step in s.processes &&
    var main := BackendOf(s, step).main;
    main.Selecting? || main.AwaitingStatus? || main.InGrace?
  }

  ghost predicate Ends(s: System, events: seq<Event>, step: string, code: int) {
    var t := Run(s, events);
    step in t.processes && BackendOf(t, step).main == Wait.Done(Wait.Exit(code))
  }

  lemma Prepend(s: System, e: Event, rest: seq<Event>, step: string, code: int)
    requires Ends(Next(s, e), rest, step, code)
    ensures Ends(s, [e] + rest, step, code)
  {
    assert ([e] + rest)[1..] == rest;
    hide Next;
  }

  // ----- From the stored status to the return -----

  lemma FromDeferring(s: System, step: string, code: int) returns (events: seq<Event>)
    requires step in s.processes && BackendOf(s, step).main == Wait.Deferring(Wait.Exit(code))
    ensures |events| == 1 && Ends(s, events, step, code)
  {
    hide Tokens.Next;
    events := [BackendMoves(step, Wait.RunDefers)];
    assert events[1..] == [];
    assert Run(s, events) == Next(s, BackendMoves(step, Wait.RunDefers));
  }

  lemma FromSent(s: System, step: string, code: int) returns (events: seq<Event>)
    requires Listening(s, step)
    requires
      var sent := BackendOf(s, step).statusCh;
      sent.Some? && sent.value.Reported? && sent.value.status.exitCode == code
    ensures |events| == 2 && Ends(s, events, step, code)
  {
    var e := BackendMoves(step, Wait.TakeStatus);
    var rest := FromDeferring(Next(s, e), step, code);
    Prepend(s, e, rest, step, code);
    events := [e] + rest;
  }

  lemma FromReturned(s: System, step: string, code: int) returns (events: seq<Event>)
    requires Inv(s) && Listening(s, step) && !BackendOf(s, step).statusSent
    requires
      var w := Store.WaiterOf(s.store, step);
      w.Returned? && w.result.Reported? && w.result.status.exitCode == code
    ensures |events| == 3 && Ends(s, events, step, code)
  {
    assert ProcessOk(s, step);
    hide Inv, ProcessOk;
    var e := BackendMoves(step, Wait.SendStatus);
    var rest := FromSent(Next(s, e), step, code);
    Prepend(s, e, rest, step, code);
    events := [e] + rest;
  }

  /** A move of the waiter goroutine that leaves everything but the store alone. */
  lemma WaiterMove(s: System, step: string, a: Store.Action)
    requires Inv(s) && Listening(s, step) && Enabled(s, WaiterMoves(step, a)) && !a.BeginWait?
    ensures
      var t := Next(s, WaiterMoves(step, a));
      Inv(t) && Listening(t, step) && BackendOf(t, step) == BackendOf(s, step) && t.store == Store.Next(s.store, a)
  {
    NextKeepsInv(s, WaiterMoves(step, a));
    hide Inv;
  }

  lemma FromLeaving(s: System, step: string, code: int) returns (events: seq<Event>)
    requires Inv(s) && Listening(s, step) && !BackendOf(s, step).statusSent
    requires
      var w := Store.WaiterOf(s.store, step);
      w.Leaving? && w.result.Reported? && w.result.status.exitCode == code
    ensures |events| == 4 && Ends(s, events, step, code)
  {
    var e := WaiterMoves(step, Store.Depart(step));
    WaiterMove(s, step, Store.Depart(step));
    hide Inv, Next, Listening;
    var rest := FromReturned(Next(s, e), step, code);
    Prepend(s, e, rest, step, code);
    events := [e] + rest;
  }

  /** A waiting goroutine whose channel holds something: what it holds is the step's one report. */
  lemma FromStored(s: System, step: string, status: Store.Status) returns (events: seq<Event>)
    requires Inv(s) && Listening(s, step) && Store.Enabled(s.store, Store.Receive(step)) && Genuine(s, step, status)
    ensures |events| == 5 && Ends(s, events, step, status.exitCode)
  {
    var e := WaiterMoves(step, Store.Receive(step));
    assert ProcessOk(s, step) && Store.StepOk(s.store, step);
    var stored := Store.History(s.store.stored, step);
    assert stored[0] in Store.History(s.store.called, step);
    assert Genuine(s, step, stored[0]) && stored[0] == status;
    WaiterMove(s, step, Store.Receive(step));
    hide Inv, Next, Listening, ProcessOk;
    var rest := FromLeaving(Next(s, e), step, status.exitCode);
    Prepend(s, e, rest, step, status.exitCode);
    events := [e] + rest;
  }

  // ----- From the POST to the stored status -----

  /** A move of a handler that leaves everything but the store alone, and the waiter in its select. */
  lemma HandlerMove(s: System, step: string, a: Store.Action)
    requires Inv(s) && Listening(s, step) && Enabled(s, HandlerMoves(a)) && Store.WaiterOf(s.store, step).Waiting?
    ensures
      var t := Next(s, HandlerMoves(a));
      && Inv(t) && Listening(t, step) && t.processes == s.processes && t.store == Store.Next(s.store, a)
      && Store.WaiterOf(t.store, step) == Store.WaiterOf(s.store, step)
  {
    NextKeepsInv(s, HandlerMoves(a));
    hide Inv;
  }

  lemma FromLocated(s: System, step: string, i: nat, status: Store.Status) returns (events: seq<Event>)
    requires Inv(s) && Listening(s, step) && Store.WaiterOf(s.store, step).Waiting? && Genuine(s, step, status)
    requires
      i < |s.store.setters| && s.store.setters[i] == Store.Located(step, status, Store.WaiterOf(s.store, step).ch)
    ensures |events| == 6 && Ends(s, events, step, status.exitCode)
  {
    var e := HandlerMoves(Store.Send(i));
    assert Store.StepOk(s.store, step);
    HandlerMove(s, step, Store.Send(i));
    hide Inv, Next, Listening;
    var rest := FromStored(Next(s, e), step, status);
    Prepend(s, e, rest, step, status.exitCode);
    events := [e] + rest;
  }

  lemma FromArrived(s: System, step: string, i: nat, status: Store.Status) returns (events: seq<Event>)
    requires Inv(s) && Listening(s, step) && Store.WaiterOf(s.store, step).Waiting? && Genuine(s, step, status)
    requires i < |s.store.setters| && s.store.setters[i] == Store.Arrived(step, status)
    ensures |events| == 7 && Ends(s, events, step, status.exitCode)
  {
    var e := HandlerMoves(Store.Locate(i));
    assert Store.StepOk(s.store, step);
    HandlerMove(s, step, Store.Locate(i));
    hide Inv, Next, Listening;
    var rest := FromLocated(Next(s, e), step, i, status);
    Prepend(s, e, rest, step, status.exitCode);
    events := [e] + rest;
  }

  lemma FromAdmitted(s: System, post: Post) returns (events: seq<Event>)
    requires Inv(s) && Listening(s, post.step) && Store.WaiterOf(s.store, post.step).Waiting?
    requires post in s.posts && Admitted(s, post.step)
    ensures |events| == 8 && Ends(s, events, post.step, post.status.exitCode)
  {
    var e := Deliver(post);
    assert Genuine(s, post.step, post.status);
    NextKeepsInv(s, e);
    hide Inv, Tokens.Next, Admitted;
    var rest := FromArrived(Next(s, e), post.step, |s.store.setters|, post.status);
    hide Next;
    Prepend(s, e, rest, post.step, post.status.exitCode);
    events := [e] + rest;
  }

  /**
   A report is not lost on the way: from any reachable state in which a step's POST would be admitted, its
   method is still in a select and its WaitForStatus not over, at most nine events - the delivery and moves of
   handler, goroutine and method - end in the return of the very code the POST carries.
   */
  lemma DeliveredStatusEndsTheWait(past: seq<Event>, post: Post) returns (events: seq<Event>)
    requires var s := Run(START, past);
      && post in s.posts && Listening(s, post.step) && Admitted(s, post.step)
      && (Store.WaiterOf(s.store, post.step).Idle? || Store.WaiterOf(s.store, post.step).Waiting?)
    ensures |events| <= 9 && Ends(Run(START, past), events, post.step, post.status.exitCode)
  {
    StartInv();
    RunKeepsInv(START, past);
    hide Run;
    events := FromPosted(Run(START, past), post);
  }

  lemma FromPosted(s: System, post: Post) returns (events: seq<Event>)
    requires Inv(s) && post in s.posts && Listening(s, post.step) && Admitted(s, post.step)
    requires Store.WaiterOf(s.store, post.step).Idle? || Store.WaiterOf(s.store, post.step).Waiting?
    ensures |events| <= 9 && Ends(s, events, post.step, post.status.exitCode)
  {
    if Store.WaiterOf(s.store, post.step).Waiting? {
      events := FromAdmitted(s, post);
    } else {
      var e := WaiterMoves(post.step, Store.BeginWait(post.step));
      NextKeepsInv(s, e);
      hide Inv;
      var rest := FromAdmitted(Next(s, e), post);
      hide Next, Admitted;
      Prepend(s, e, rest, post.step, post.status.exitCode);
      events := [e] + rest;
    }
  }

  // ----- From the start -----

  /** The one step was launched and nothing but its runner has moved since, which has come to `r`. */
  ghost predicate OnlyRunnerMoved(past: seq<Event>, step: string, r: Agent.Runner) {
    var s := Run(START, past);
    && step in s.processes && s.processes[step].runner == r && s.processes[step].backend == Wait.START
    && Admitted(s, step) && s.store == Store.INIT
  }

  lemma RunnerMoves(past: seq<Event>, step: string, r: Agent.Runner, a: Agent.Action) returns (events: seq<Event>)
    requires OnlyRunnerMoved(past, step, r) && Agent.Enabled(r, a)
    ensures OnlyRunnerMoved(events, step, Agent.Next(r, a))
    ensures a.Post? ==> Post(step, r.pc.status) in Run(START, events).posts
  {
    events := past + [AgentMoves(step, a)];
    RunOneMore(START, past, AgentMoves(step, a));
    hide Run, Agent.Next, Agent.Enabled;
  }

  lemma {:induction false} RunOneMore(s: System, events: seq<Event>, e: Event)
    ensures Run(s, events + [e]) == Next(Run(s, events), e)
    decreases |events|
  {
    hide Next;
    if events == [] {
      assert events + [e] == [e] && [e][1..] == [];
    } else {
      assert (events + [e])[1..] == events[1..] + [e];
      RunOneMore(Next(s, events[0]), events[1..], e);
    }
  }

  lemma Launched(step: string, minted: Tokens.ContainerToken, ttl: nat)
    ensures OnlyRunnerMoved([Launch(step, minted, ttl)], step, Agent.START)
  {
    var e := Launch(step, minted, ttl);
    assert [e][1..] == [];
    assert Run(START, [e]) == Next(START, e);
    hide Run;
  }

  /** The runner can report the provider's code, whatever it is. */
  lemma PostedFromTheStart(step: string, minted: Tokens.ContainerToken, ttl: nat, status: Store.Status)
    returns (events: seq<Event>, r: Agent.Runner)
    requires status.exitCode == 0 ==> status.errMsg == ""
    ensures OnlyRunnerMoved(events, step, r) && Post(step, status) in Run(START, events).posts
  {
    events, r := [Launch(step, minted, ttl)], Agent.START;
    Launched(step, minted, ttl);
    hide OnlyRunnerMoved;
    events := RunnerMoves(events, step, r, Agent.Cloned(true, ""));
    r := Agent.Next(r, Agent.Cloned(true, ""));
    events := RunnerMoves(events, step, r, Agent.ContextWritten(true, ""));
    r := Agent.Next(r, Agent.ContextWritten(true, ""));
    events := RunnerMoves(events, step, r, Agent.ProviderStarted(true, ""));
    r := Agent.Next(r, Agent.ProviderStarted(true, ""));
    events := RunnerMoves(events, step, r, Agent.ProviderResult(status.exitCode));
    r := Agent.Next(r, Agent.ProviderResult(status.exitCode));
    events := RunnerMoves(events, step, r, Agent.ProviderClosed(status.errMsg));
    r := Agent.Next(r, Agent.ProviderClosed(status.errMsg));
    if status.exitCode == 0 {
      events := RunnerMoves(events, step, r, Agent.Pushed(true, ""));
      r := Agent.Next(r, Agent.Pushed(true, ""));
    }
    events := RunnerMoves(events, step, r, Agent.Post);
    r := Agent.Next(r, Agent.Post);
  }

  /** Every exit code can be returned: there is a run of the system in which the step's wait returns just that. */
  lemma EveryCodeCanBeReturned(step: string, minted: Tokens.ContainerToken, ttl: nat, code: int)
    returns (events: seq<Event>)
    ensures Ends(START, events, step, code)
  {
    var status := Store.Status(code, "");
    var past, r := PostedFromTheStart(step, minted, ttl, status);
    hide Run, Admitted;
    var rest := DeliveredStatusEndsTheWait(past, Post(step, status));
    RunInTwo(START, past, rest);
    events := past + rest;
  }

  lemma {:induction false} RunInTwo(s: System, a: seq<Event>, b: seq<Event>)
    ensures Run(s, a + b) == Run(Run(s, a), b)
    decreases |a|
  {
    hide Next;
    if a == [] {
      assert a + b == b;
    } else {
      assert (a + b)[1..] == a[1..] + b;
      RunInTwo(Next(s, a[0]), a[1..], b);
    }
  }
}
