/**
 The agent process as it is written: the runner's sequence of effects with its early
 returns, and the client's retry loop.  Each run of it is a run of AgentRunner's machine.
 */
module AgentProcess {
  import opened Options
  import StatusStore
  import opened AgentRunner

  datatype Event = Log | Cost | Result(code: int, message: string)

  /**
   How everything outside the process turns out.  The provider gives some output and exits;
   `replies` answers the POSTs of the one report.
   */
  datatype World = World(
    cloneError: Option<string>,
    contextError: Option<string>,
    startError: Option<string>,
    output: seq<Event>,
    exitCode: int,
    exitMessage: string,
    pushError: Option<string>,
    replies: nat -> Reply
  )

  /** Attempt `k` is the last: the server's answer is final, or no attempts are left. */
  ghost predicate LastAttempt(replies: nat -> Reply, k: nat) {
    && k < 3 && (replies(k).Unanswered? ==> k + 1 == 3)
    && forall j: nat :: j < k ==> replies(j).Unanswered?
  }

  function Repeat(status: StatusStore.Status, n: nat): (s: seq<StatusStore.Status>)
    ensures |s| == n
  {
    seq(n, i requires 0 <= i < n => status)
  }

  /** What a provider sends: its output, and once its process has been waited for, the result, last. */
  function Stream(w: World): seq<Event> {
    w.output + [Result(w.exitCode, w.exitMessage)]
  }

  /** The last result event of a stream, or the zero value. */
  function LastResult(events: seq<Event>): (r: Event)
    ensures r.Result?
  {
    if events == [] then Result(0, "")
    else
      var n := |events| - 1;
      if events[n].Result? then events[n] else LastResult(events[..n])
  }

  predicate ProviderRan(w: World) {
    w.cloneError.None? && w.contextError.None? && w.startError.None?
  }

  /** Whether the report is the regular one at the end of Run, whose failure alone decides Run's error. */
  predicate Regular(w: World) {
    ProviderRan(w) && (w.exitCode != 0 || w.pushError.None?)
  }

  lemma {:induction false} RunOneMore(r: Runner, actions: seq<Action>, a: Action)
    ensures Run(r, actions + [a]) == Next(Run(r, actions), a)
    decreases |actions|
  {
    if actions == [] {
      assert actions + [a] == [a];
      assert Run(Next(r, a), []) == Next(r, a);
    } else {
      assert (actions + [a])[1..] == actions[1..] + [a];
      RunOneMore(Next(r, actions[0]), actions[1..], a);
    }
  }

  lemma ResultComesLast(w: World)
    ensures LastResult(Stream(w)) == Result(w.exitCode, w.exitMessage)
    ensures exists e :: e in Stream(w) && e.Result?
  {
    assert Stream(w)[|w.output|] in Stream(w);
  }

  class Process {
    var wire: seq<StatusStore.Status>        // the payloads of the POSTs issued
    var pushed: bool
    ghost var machine: Runner
    ghost var trace: seq<Action>

    /** The process is where its trace leads, and has posted only the machine's report. */
    ghost predicate Valid()
      reads this
    {
      && machine == AgentRunner.Run(START, trace) && Inv(machine)
      && pushed == machine.pushed && |wire| == machine.posts
      && forall p :: p in wire ==> machine.reports == [p]
    }

    constructor ()
      ensures Valid() && machine == START && wire == []
    {
      wire, pushed, machine, trace := [], false, START, [];
    }

    ghost method Take(a: Action)
      requires Valid() && Enabled(machine, a) && !a.Post? && !a.Kill? && (a.Pushed? ==> !a.ok)
      modifies this`machine, this`trace
      ensures Valid() && machine == Next(old(machine), a)
    {
      RunOneMore(START, trace, a);
      NextKeepsInv(machine, a);
      ReportIsFinal(machine, a);
      machine, trace := Next(machine, a), trace + [a];
    }

    /** One POST goes out. */
    method Issue(payload: StatusStore.Status)
      requires Valid() && machine.pc.Posting? && machine.pc.status == payload
      modifies this`wire, this`machine, this`trace
      ensures Valid() && machine == Next(old(machine), Post) && wire == old(wire) + [payload]
    {
      RunOneMore(START, trace, Post);
      NextKeepsInv(machine, Post);
      machine, trace := Next(machine, Post), trace + [Post];
      wire := wire + [payload];
    }

    /** The retry loop: at most three POSTs of one payload, and no more than the answers call for. */
    method PostJSON(payload: StatusStore.Status, replies: nat -> Reply) returns (ok: bool)
      requires Valid() && machine.pc.Posting? && machine.pc.status == payload && machine.pc.attempt == 0 && wire == []
      modifies this`wire, this`machine, this`trace
      ensures Valid() && machine.pc.Exited? && machine.reports == [payload] && !machine.killed
      ensures 1 <= |wire| <= 3 && wire == Repeat(payload, |wire|) && LastAttempt(replies, |wire| - 1)
      ensures ok <==> replies(|wire| - 1).Accepted?
      ensures machine.pc.code == (if ok && old(machine.pc.final) then 0 else 1)
      ensures machine.results == old(machine.results) && machine.pushed == old(machine.pushed)
    {
      ok := false;
      for attempt := 0 to MAX_ATTEMPTS
        invariant Valid() && |wire| == attempt && !ok
        invariant machine == old(machine).(
          pc := if attempt == MAX_ATTEMPTS then Exited(1)
            else Posting(payload, old(machine.pc.final), attempt), posts := attempt)
        invariant wire == Repeat(payload, attempt)
        invariant forall j: nat :: j < attempt ==> replies(j).Unanswered?
      {
        Issue(payload);
        var reply := replies(attempt);
        Take(Answer(reply));
        match reply {
          case Accepted => return true;
          case Rejected => return false;
          case ContextDone => return false;
          case Unanswered =>
        }
      }
    }

    /**
     The whole pipeline.  Whatever the world does, one status is reported and only its payload
     is ever posted: code 1 with the text of the first thing that goes wrong, or the provider's
     own code and message when that is not 0, or 0 when everything went well.  It is 0 exactly
     when the changes were pushed.
     */
    method Run(w: World) returns (code: int)
      requires Valid() && machine == START && wire == []
      modifies this
      ensures Valid() && machine.pc == Exited(code) && !machine.killed
      ensures |machine.reports| == 1 && 1 <= |wire| <= 3
      ensures wire == Repeat(machine.reports[0], |wire|) && LastAttempt(w.replies, |wire| - 1)
      ensures w.cloneError.Some? ==> machine.reports[0] == StatusStore.Status(1, w.cloneError.value)
      ensures w.cloneError.None? && w.contextError.Some? ==>
        machine.reports[0] == StatusStore.Status(1, w.contextError.value)
      ensures w.cloneError.None? && w.contextError.None? && w.startError.Some? ==>
        machine.reports[0] == StatusStore.Status(1, w.startError.value)
      ensures ProviderRan(w) && w.exitCode != 0 ==>
        machine.reports[0] == StatusStore.Status(w.exitCode, w.exitMessage)
      ensures ProviderRan(w) && w.exitCode == 0 ==>
        machine.reports[0] == if w.pushError.Some? then StatusStore.Status(1, w.pushError.value)
                              else StatusStore.Status(0, "")
      ensures pushed <==> ProviderRan(w) && w.exitCode == 0 && w.pushError.None?
      ensures code == 0 <==> Regular(w) && w.replies(|wire| - 1).Accepted?
    {
      hide AgentRunner.Run, Inv, LastResult, Repeat, LastAttempt;
      Take(Cloned(w.cloneError.None?, Why(w.cloneError)));
      if w.cloneError.Some? {
        code := Fail(w.cloneError.value, w.replies);
        return;
      }
      Take(ContextWritten(w.contextError.None?, Why(w.contextError)));
      if w.contextError.Some? {
        code := Fail(w.contextError.value, w.replies);
        return;
      }
      Take(ProviderStarted(w.startError.None?, Why(w.startError)));
      if w.startError.Some? {
        code := Fail(w.startError.value, w.replies);
        return;
      }
      code := RunProvider(w);
    }

    /** The pipeline from the started provider on: its events, the push, and the regular report. */
    method RunProvider(w: World) returns (code: int)
      requires Valid() && ProviderRan(w) && machine.pc.Streaming? && machine.results == [] && wire == []
      modifies this
      ensures Valid() && machine.pc == Exited(code) && !machine.killed
      ensures |machine.reports| == 1 && 1 <= |wire| <= 3
      ensures wire == Repeat(machine.reports[0], |wire|) && LastAttempt(w.replies, |wire| - 1)
      ensures w.exitCode != 0 ==> machine.reports[0] == StatusStore.Status(w.exitCode, w.exitMessage)
      ensures w.exitCode == 0 ==>
        machine.reports[0] == if w.pushError.Some? then StatusStore.Status(1, w.pushError.value)
                              else StatusStore.Status(0, "")
      ensures pushed <==> w.exitCode == 0 && w.pushError.None?
      ensures code == 0 <==> Regular(w) && w.replies(|wire| - 1).Accepted?
    {
      hide AgentRunner.Run, LastResult, Repeat, LastAttempt;
      var lastResult := Drain(Stream(w));
      ResultComesLast(w);
      Take(ProviderClosed(lastResult.message));
      if lastResult.code == 0 {
        CommitAndPush(w.pushError);
        if w.pushError.Some? {
          code := Fail(w.pushError.value, w.replies);
          return;
        }
      }
      var errMsg := if lastResult.code != 0 then lastResult.message else "";
      var ok := PostJSON(StatusStore.Status(lastResult.code, errMsg), w.replies);
      code := if ok then 0 else 1;
    }

    /** SendStatus with code 1, whose own error is dropped, and the error returned. */
    method Fail(why: string, replies: nat -> Reply) returns (code: int)
      requires Valid() && machine.pc == Posting(StatusStore.Status(1, why), false, 0) && wire == []
      modifies this`wire, this`machine, this`trace
      ensures Valid() && machine.pc == Exited(code) && code == 1 && !machine.killed
      ensures machine.reports == [StatusStore.Status(1, why)] && machine.pushed == old(machine.pushed)
      ensures 1 <= |wire| <= 3 && wire == Repeat(StatusStore.Status(1, why), |wire|)
      ensures LastAttempt(replies, |wire| - 1)
    {
      var _ := PostJSON(StatusStore.Status(1, why), replies);
      code := 1;
    }

    method CommitAndPush(error: Option<string>)
      requires Valid() && machine.pc.Pushing?
      modifies this`pushed, this`machine, this`trace
      ensures Valid() && machine == Next(old(machine), Pushed(error.None?, Why(error)))
    {
      if error.None? {
        RunOneMore(START, trace, Pushed(true, ""));
        NextKeepsInv(machine, Pushed(true, ""));
        machine, trace := Next(machine, Pushed(true, "")), trace + [Pushed(true, "")];
        pushed := true;
      } else {
        Take(Pushed(false, error.value));
      }
    }

    /** Reads the provider's events to the end, remembering the last result. */
    method Drain(events: seq<Event>) returns (lastResult: Event)
      requires Valid() && machine.pc.Streaming? && machine.results == []
      modifies this`machine, this`trace
      ensures Valid() && lastResult == LastResult(events) && LastCode(machine.results) == lastResult.code
      ensures machine == old(machine).(results := machine.results)
      ensures (exists e :: e in events && e.Result?) ==> machine.results != []
    {
      lastResult := Result(0, "");
      for i := 0 to |events|
        invariant Valid() && lastResult == LastResult(events[..i]) && LastCode(machine.results) == lastResult.code
        invariant machine == old(machine).(results := machine.results)
        invariant machine.results == [] ==> forall e :: e in events[..i] ==> !e.Result?
      {
        assert events[..i + 1] == events[..i] + [events[i]];
        match events[i] {
          case Result(code, _) =>
            Take(ProviderResult(code));
            lastResult := events[i];
          case Log =>
          case Cost =>
        }
      }
      assert events[..|events|] == events;
    }
  }

  function Why(error: Option<string>): string {
    if error.Some? then error.value else ""
  }
}
