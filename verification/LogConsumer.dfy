/**
 How a step's container logs are consumed: a goroutine keeps the tail, collects cost
 events and forwards the rest, while the method waits for the exit and then for it.
 */
module LogConsumer {
  import opened Options
  import Text

  datatype LogEvent = LogEvent(kind: string, message: string, inputTokens: int, outputTokens: int, model: string)

  datatype CostEvent = CostEvent(inputTokens: int, outputTokens: int, model: string)

  /** What the goroutine has accumulated: the tail buffer, the cost events, and what it published. */
  datatype Log = Log(tail: seq<string>, costs: seq<CostEvent>, forwarded: seq<LogEvent>)

  const EMPTY := Log([], [], [])

  function TailSize(logTailLines: int): (n: nat)
    ensures n > 0
  {
    if logTailLines <= 0 then 50 else logTailLines
  }

  predicate IsCost(e: LogEvent) {
    e.kind == "cost"
  }

  function CostOf(e: LogEvent): CostEvent {
    CostEvent(e.inputTokens, e.outputTokens, e.model)
  }

  /** One turn of the goroutine's loop. */
  function Consume(log: Log, e: LogEvent, tailSize: nat): Log
    requires tailSize > 0
  {
    var kept := if |log.tail| >= tailSize then log.tail[1..] else log.tail;
    var tail := kept + [e.message];
    if IsCost(e) then Log(tail, log.costs + [CostOf(e)], log.forwarded)
    else Log(tail, log.costs, log.forwarded + [e])
  }

  // ----- What the loop computes -----

  function Messages(events: seq<LogEvent>): (m: seq<string>)
    ensures |m| == |events|
  {
    seq(|events|, i requires 0 <= i < |events| => events[i].message)
  }

  function LastN<T>(s: seq<T>, n: nat): (r: seq<T>)
    ensures |r| == if |s| < n then |s| else n
  {
    if |s| <= n then s else s[|s| - n..]
  }

  /** The events of one type, in order. */
  function Only(events: seq<LogEvent>, cost: bool): seq<LogEvent> {
    if events == [] then []
    else
      var n := |events| - 1;
      Only(events[..n], cost) + (if IsCost(events[n]) == cost then [events[n]] else [])
  }

  function Costs(events: seq<LogEvent>): seq<CostEvent> {
    var costs := Only(events, true);
    seq(|costs|, i requires 0 <= i < |costs| => CostOf(costs[i]))
  }

  /** The result for a whole stream, without the buffer. */
  function Consumed(events: seq<LogEvent>, tailSize: nat): Log {
    Log(LastN(Messages(events), tailSize), Costs(events), Only(events, false))
  }

  lemma ConsumeOneMore(events: seq<LogEvent>, e: LogEvent, tailSize: nat)
    requires tailSize > 0
    ensures Consume(Consumed(events, tailSize), e, tailSize) == Consumed(events + [e], tailSize)
  {
    var longer := events + [e];
    assert longer[..|events|] == events;
    assert Messages(longer) == Messages(events) + [e.message];
    assert Costs(longer) == if IsCost(e) then Costs(events) + [CostOf(e)] else Costs(events);
    var m, m' := Messages(events), Messages(longer);
    var kept := if |LastN(m, tailSize)| >= tailSize then LastN(m, tailSize)[1..] else LastN(m, tailSize);
    assert LastN(m', tailSize) == kept + [e.message];
  }

  /** The loop keeps the last min(n, size) messages and splits the events by type. */
  method ConsumeAll(events: seq<LogEvent>, logTailLines: int) returns (log: Log)
    ensures log == Consumed(events, TailSize(logTailLines))
    ensures |log.tail| <= (if logTailLines <= 0 then 50 else logTailLines)
    ensures |log.costs| + |log.forwarded| == |events|
    ensures
      var costs := Only(events, true);
      && |log.costs| == |costs|
      && forall i :: 0 <= i < |costs| ==>
           && log.costs[i].inputTokens == costs[i].inputTokens && log.costs[i].outputTokens == costs[i].outputTokens
           && log.costs[i].model == costs[i].model
  {
    var tailSize := TailSize(logTailLines);
    var logTail, costEvents, forwarded := [], [], [];
    assert Costs([]) == [];
    for i := 0 to |events|
      invariant Log(logTail, costEvents, forwarded) == Consumed(events[..i], tailSize)
      invariant |costEvents| + |forwarded| == i
    {
      var e := events[i];
      ConsumeOneMore(events[..i], e, tailSize);
      assert events[..i] + [e] == events[..i + 1];
      if |logTail| >= tailSize {
        logTail := logTail[1..];
      }
      logTail := logTail + [e.message];
      if e.kind == "cost" {
        costEvents := costEvents + [CostOf(e)];
        continue;
      }
      forwarded := forwarded + [e];
    }
    assert events[..|events|] == events;
    log := Log(logTail, costEvents, forwarded);
  }

  /** Puts two streams back together, given which of them each event came from. */
  function Merge(kinds: seq<bool>, cost: seq<LogEvent>, other: seq<LogEvent>): seq<LogEvent> {
    if kinds == [] then []
    else
      var n := |kinds| - 1;
      var stream := if kinds[n] then cost else other;
      if stream == [] then []
      else if kinds[n] then Merge(kinds[..n], cost[..|cost| - 1], other) + [cost[|cost| - 1]]
      else Merge(kinds[..n], cost, other[..|other| - 1]) + [other[|other| - 1]]
  }

  function Kinds(events: seq<LogEvent>): seq<bool> {
    seq(|events|, i requires 0 <= i < |events| => IsCost(events[i]))
  }

  lemma MergeOneMore(kinds: seq<bool>, cost: seq<LogEvent>, other: seq<LogEvent>, e: LogEvent)
    ensures Merge(kinds + [true], cost + [e], other) == Merge(kinds, cost, other) + [e]
    ensures Merge(kinds + [false], cost, other + [e]) == Merge(kinds, cost, other) + [e]
  {
    assert (kinds + [true])[..|kinds|] == kinds && (cost + [e])[..|cost|] == cost;
    assert (kinds + [false])[..|kinds|] == kinds && (other + [e])[..|other|] == other;
  }

  /**
   The split by type loses nothing, duplicates nothing and reorders nothing: the two halves merge back
   into the stream.
   */
  lemma {:induction false} MergeUndoesSplit(events: seq<LogEvent>)
    ensures Merge(Kinds(events), Only(events, true), Only(events, false)) == events
  {
    if events != [] {
      var init, e := events[..|events| - 1], events[|events| - 1];
      MergeUndoesSplit(init);
      MergeOneMore(Kinds(init), Only(init, true), Only(init, false), e);
      SplitOneMore(init, e);
      hide *;
      assert events == init + [e];
    }
  }

  lemma SplitOneMore(init: seq<LogEvent>, e: LogEvent)
    ensures
      var longer := init + [e];
      if IsCost(e) then
        && Kinds(longer) == Kinds(init) + [true]
        && Only(longer, true) == Only(init, true) + [e] && Only(longer, false) == Only(init, false)
      else
        && Kinds(longer) == Kinds(init) + [false]
        && Only(longer, false) == Only(init, false) + [e] && Only(longer, true) == Only(init, true)
  {
    assert (init + [e])[..|init|] == init;
  }

  // ----- The goroutine and the method, interleaved -----

  datatype Main =
    | AwaitingExit                              // on doneCh
    | Joining(code: int)                        // in wg.Wait, context not cancelled
    | JoiningCancelled                          // in wg.Wait, about to return ctx.Err()
    | Returned(result: Option<int>)             // None: an error

  /** `sent` is all the streamer has put on logCh; `persisted` and `recorded` are the writes to the step. */
  datatype State = State(
    tailSize: nat,
    sent: seq<LogEvent>,
    closed: bool,
    consumed: nat,
    log: Log,
    main: Main,
    persisted: Option<string>,
    recorded: Option<seq<CostEvent>>
  )

  datatype Action =
    | Emit(event: LogEvent)
    | CloseLogs
    | ConsumeNext
    | ContainerExits(code: int, cancelled: bool)   // doneCh yields, and then ctx.Err() is read
    | Join

  function Start(logTailLines: int): State {
    State(TailSize(logTailLines), [], false, 0, EMPTY, AwaitingExit, None, None)
  }

  predicate Enabled(s: State, a: Action) {
    match a
    case Emit(_) => !s.closed
    case CloseLogs => !s.closed
    case ConsumeNext => s.consumed < |s.sent| && s.tailSize > 0
    case ContainerExits(_, _) => s.main.AwaitingExit?
    case Join => (s.main.Joining? || s.main.JoiningCancelled?) && s.closed && s.consumed == |s.sent|
  }

  function Next(s: State, a: Action): State {
    if !Enabled(s, a) then s else
    match a
    case Emit(e) => s.(sent := s.sent + [e])
    case CloseLogs => s.(closed := true)
    case ConsumeNext => s.(log := Consume(s.log, s.sent[s.consumed], s.tailSize), consumed := s.consumed + 1)
    case ContainerExits(code, cancelled) => s.(main := if cancelled then JoiningCancelled else Joining(code))
    case Join =>
      if s.main.JoiningCancelled? then s.(main := Returned(None))
      else s.(main := Returned(Some(s.main.code)),
              persisted := Some(Text.JoinLines(s.log.tail)),
              recorded := if s.log.costs == [] then None else Some(s.log.costs))
  }

  function Run(s: State, actions: seq<Action>): State
    decreases |actions|
  {
    if actions == [] then s else Run(Next(s, actions[0]), actions[1..])
  }

  ghost predicate Inv(s: State) {
    && s.tailSize > 0
    && s.consumed <= |s.sent|
    && s.log == Consumed(s.sent[..s.consumed], s.tailSize)
    && (s.main.Returned? ==> s.closed && s.consumed == |s.sent|)
    && (s.main.Returned? && s.main.result.Some? ==>
          && s.persisted == Some(Text.JoinLines(s.log.tail))
          && s.recorded == (if s.log.costs == [] then None else Some(s.log.costs)))
    && (!s.main.Returned? || s.main.result.None? ==> s.persisted.None? && s.recorded.None?)
  }

  lemma NextKeepsInv(s: State, a: Action)
    requires Inv(s)
    ensures Inv(Next(s, a)) && Next(s, a).tailSize == s.tailSize
  {
    hide Consumed, Consume;
    if Enabled(s, a) {
      match a {
        case Emit(e) =>
          assert (s.sent + [e])[..s.consumed] == s.sent[..s.consumed];
        case ConsumeNext =>
          var e := s.sent[s.consumed];
          ConsumeOneMore(s.sent[..s.consumed], e, s.tailSize);
          assert s.sent[..s.consumed] + [e] == s.sent[..s.consumed + 1];
        case _ =>
      }
    }
  }

  lemma {:induction false} RunKeepsInv(s: State, actions: seq<Action>)
    requires Inv(s)
    ensures Inv(Run(s, actions)) && Run(s, actions).tailSize == s.tailSize
    decreases |actions|
  {
    if actions != [] {
      NextKeepsInv(s, actions[0]);
      RunKeepsInv(Next(s, actions[0]), actions[1..]);
    }
  }

  /**
   However the log stream, the container's exit and the goroutine interleave, a return
   with an exit code means the step's row holds the last lines of the complete stream
   and all of its cost events were recorded, in order; and a cancelled wait wrote nothing.
   */
  lemma PersistsTheCompleteStream(logTailLines: int, actions: seq<Action>)
    ensures
      var s := Run(Start(logTailLines), actions);
      && (s.main.Returned? && s.main.result.Some? ==>
            && s.closed && s.log.forwarded == Only(s.sent, false)
            && s.persisted == Some(Text.JoinLines(LastN(Messages(s.sent), TailSize(logTailLines))))
            && s.recorded == (if Only(s.sent, true) == [] then None else Some(Costs(s.sent))))
      && (s.main.Returned? && s.main.result.None? ==> s.persisted.None? && s.recorded.None?)
  {
    assert Costs([]) == [];
    RunKeepsInv(Start(logTailLines), actions);
    var s := Run(Start(logTailLines), actions);
    assert s.sent[..|s.sent|] == s.sent;
  }

  /** And such a return is always within reach: the goroutine can drain what was sent, and then the method joins it. */
  lemma {:induction false} CanAlwaysReturn(s: State, code: int) returns (more: seq<Action>)
    requires Inv(s) && s.main.AwaitingExit?
    ensures
      var t := Run(s, more);
      t.main == Returned(Some(code)) && t.sent == s.sent && t.persisted.Some?
    decreases |s.sent| - s.consumed, !s.closed
  {
    hide Consumed, Consume;
    if s.consumed < |s.sent| || !s.closed {
      var a := if s.consumed < |s.sent| then ConsumeNext else CloseLogs;
      NextKeepsInv(s, a);
      var rest := CanAlwaysReturn(Next(s, a), code);
      more := [a] + rest;
      assert more[1..] == rest;
    } else {
      more := [ContainerExits(code, false), Join];
      var t := Next(s, ContainerExits(code, false));
      assert more[1..] == [Join] && [Join][1..] == [];
      assert Run(s, more) == Run(t, [Join]) == Run(Next(t, Join), []);
    }
  }
}
