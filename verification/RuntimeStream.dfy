/**
 The live view's reducer: one server event at a time, it updates per-run and per-step
 signals.  Payloads are kept as they arrive - possibly nested, with aliased keys.
 */
module RuntimeStream {
  import opened Options

  /**
   What JSON.parse can give, as far as the reducer tells values apart; `Number` is finite.
   An array is an object without any of the fields looked for; null is not an object.
   */
  datatype Json = Text(text: string) | Number(value: real) | Object(fields: map<string, Json>) | Array | OtherJson {
    predicate IsObject() { Object? || Array? }

    function Fields(): map<string, Json>
      requires IsObject()
    {
      if Object? then fields else map[]
    }
  }

  datatype Status = Pending | Running | Paused | Completed | Failed | Cancelled | Unknown(text: string)

  datatype RunSignal = RunSignal(
    runId: string,
    status: Status,
    startedAt: Option<string>,
    finishedAt: Option<string>,
    costUsd: real,
    inputTokens: real,
    outputTokens: real,
    activeStepId: Option<string>,
    awaitingGate: bool
  )

  datatype StepSignal = StepSignal(
    stepId: string,
    runId: string,
    status: Status,
    startedAt: Option<string>,
    finishedAt: Option<string>,
    awaitingGate: bool
  )

  function NewRun(runId: string): RunSignal {
    RunSignal(runId, Pending, None, None, 0.0, 0.0, 0.0, None, false)
  }

  function NewStep(stepId: string, runId: string): StepSignal {
    StepSignal(stepId, runId, Pending, None, None, false)
  }

  predicate Terminal(status: Status) {
    status == Completed || status == Failed || status == Cancelled
  }

  function Or<T>(a: Option<T>, b: Option<T>): Option<T> {
    if a.Some? then a else b
  }

  /** The first of the keys that holds a non-empty string. */
  function Str(p: map<string, Json>, keys: seq<string>): (r: Option<string>)
    ensures r.Some? ==> r.value != "" && exists k :: k in keys && k in p && p[k] == Text(r.value)
    ensures r.None? ==> forall k :: k in keys && k in p && p[k].Text? ==> p[k].text == ""
  {
    if keys == [] then None
    else if keys[0] in p && p[keys[0]].Text? && p[keys[0]].text != "" then Some(p[keys[0]].text)
    else Str(p, keys[1..])
  }

  /** The first of the keys that holds a number, else zero. */
  function Num(p: map<string, Json>, keys: seq<string>): (r: real)
    ensures (exists k :: k in keys && k in p && p[k] == Number(r)) || r == 0.0
  {
    if keys == [] then 0.0
    else if keys[0] in p && p[keys[0]].Number? then p[keys[0]].value
    else Num(p, keys[1..])
  }

  // ----- An event, read -----

  datatype Kind =
    | RunStarted | RunResumed | RunPaused | RunEnded(status: Status)
    | StepStarted | StepEnded(status: Status)
    | Cost(usd: real, input: real, output: real)
    | GateOpens | GateCloses
    | StoryEnded(status: Status)
    | Ignored

  /** `now` is the wall-clock fallback for a missing timestamp. */
  datatype Event = Event(
    kind: Kind,
    run: Option<string>,
    step: Option<string>,
    startedAt: Option<string>,
    finishedAt: Option<string>,
    now: string
  )

  datatype Message = Message(name: string, data: Json, now: string)

  function TerminalNamed(s: string): Option<Status> {
    if s == "completed" then Some(Completed)
    else if s == "failed" then Some(Failed)
    else if s == "cancelled" then Some(Cancelled)
    else None
  }

  /** Some payloads nest the real fields under "payload". */
  function Inner(p: map<string, Json>): map<string, Json> {
    if "payload" in p && p["payload"].IsObject() then p["payload"].Fields() else p
  }

  function KindOf(name: string, p: map<string, Json>): Kind {
    if name == "run.started" then RunStarted
    else if name == "run.resumed" then RunResumed
    else if name == "run.paused" then RunPaused
    else if name == "run.completed" then RunEnded(Completed)
    else if name == "run.failed" then RunEnded(Failed)
    else if name == "run.cancelled" then RunEnded(Cancelled)
    else if name == "step.started" then StepStarted
    else if name == "step.completed" then StepEnded(Completed)
    else if name == "step.failed" then StepEnded(Failed)
    else if name == "step.cancelled" then StepEnded(Cancelled)
    else if name == "log.emitted" then
      if Str(p, ["type"]) != Some("cost") then Ignored
      else Cost(Num(p, ["cost_usd", "cost", "usd", "amount"]), Num(p, ["input_tokens", "inputTokens"]),
                Num(p, ["output_tokens", "outputTokens"]))
    else if name == "hitl.pending" || name == "hitl_gate.pending" then GateOpens
    else if name in {"hitl.approved", "hitl.rejected", "hitl_gate.approved", "hitl_gate.rejected"} then GateCloses
    else if name == "story.status_updated" then
      match Str(p, ["status"])
      case None => Ignored
      case Some(s) => if TerminalNamed(s).Some? then StoryEnded(TerminalNamed(s).value) else Ignored
    else Ignored
  }

  function Read(m: Message): Event {
    if !m.data.IsObject() then Event(Ignored, None, None, None, None, m.now)
    else
      var p := Inner(m.data.Fields());
      Event(KindOf(m.name, p), Str(p, ["run_id", "runId"]), Str(p, ["step_id", "stepId"]),
            Str(p, ["started_at", "startedAt"]), Str(p, ["completed_at", "finished_at"]), m.now)
  }

  // ----- What a message gives, by key and by name -----

  predicate HasText(p: map<string, Json>, key: string) {
    key in p && p[key].Text? && p[key].text != ""
  }

  predicate HasNumber(p: map<string, Json>, key: string) {
    key in p && p[key].Number?
  }

  /** `v` is the text under the first of the keys that has one, if any has. */
  predicate Gives(p: map<string, Json>, keys: seq<string>, v: Option<string>) {
    match v
    case Some(t) =>
      exists i :: 0 <= i < |keys| && HasText(p, keys[i]) && p[keys[i]].text == t
                  && forall j :: 0 <= j < i ==> !HasText(p, keys[j])
    case None => forall j :: 0 <= j < |keys| ==> !HasText(p, keys[j])
  }

  /** `v` is the number under the first of the keys that has one, or 0. */
  predicate GivesNumber(p: map<string, Json>, keys: seq<string>, v: real) {
    if exists j :: 0 <= j < |keys| && HasNumber(p, keys[j]) then
      exists i :: 0 <= i < |keys| && HasNumber(p, keys[i]) && p[keys[i]].value == v
                  && forall j :: 0 <= j < i ==> !HasNumber(p, keys[j])
    else v == 0.0
  }

  /** The fields of the message: those of the object under "payload" if there is one, else its own. */
  predicate Carries(m: Message, p: map<string, Json>) {
    m.data.IsObject() &&
    var own := m.data.Fields();
    if "payload" in own && own["payload"].IsObject() then p == own["payload"].Fields() else p == own
  }

  predicate NamesRun(m: Message, run: string) {
    m.data.IsObject() && Gives(Inner(m.data.Fields()), ["run_id", "runId"], Some(run))
  }

  predicate NamesStep(m: Message, step: string) {
    m.data.IsObject() && Gives(Inner(m.data.Fields()), ["step_id", "stepId"], Some(step))
  }

  lemma {:induction false} StrGives(p: map<string, Json>, keys: seq<string>, v: Option<string>)
    ensures Gives(p, keys, v) <==> Str(p, keys) == v
  {
    if keys != [] {
      var rest := keys[1..];
      assert keys == [keys[0]] + rest;
      StrGives(p, rest, v);
      if HasText(p, keys[0]) {
        assert Gives(p, keys, Some(p[keys[0]].text));
      } else {
        GivesLater(p, keys, v);
      }
    }
  }

  lemma GivesLater(p: map<string, Json>, keys: seq<string>, v: Option<string>)
    requires keys != [] && !HasText(p, keys[0])
    ensures Gives(p, keys, v) <==> Gives(p, keys[1..], v)
  {
    var rest := keys[1..];
    assert forall i :: 0 <= i < |rest| ==> rest[i] == keys[i + 1];
    if v.Some? {
      if i :| 0 <= i < |rest| && HasText(p, rest[i]) && p[rest[i]].text == v.value
              && forall j :: 0 <= j < i ==> !HasText(p, rest[j]) {
        assert HasText(p, keys[i + 1]) && forall j :: 0 < j < i + 1 ==> keys[j] == rest[j - 1];
      }
      if i :| 0 <= i < |keys| && HasText(p, keys[i]) && p[keys[i]].text == v.value
              && forall j :: 0 <= j < i ==> !HasText(p, keys[j]) {
        assert HasText(p, rest[i - 1]);
      }
    } else {
      assert forall j :: 0 < j < |keys| ==> keys[j] == rest[j - 1];
    }
  }

  lemma {:induction false} NumGives(p: map<string, Json>, keys: seq<string>)
    ensures GivesNumber(p, keys, Num(p, keys))
  {
    if keys != [] && !HasNumber(p, keys[0]) {
      var rest := keys[1..];
      NumGives(p, rest);
      assert forall j :: 0 < j < |keys| ==> keys[j] == rest[j - 1];
      if j :| 0 <= j < |keys| && HasNumber(p, keys[j]) {
        assert HasNumber(p, rest[j - 1]);
        var i :| 0 <= i < |rest| && HasNumber(p, rest[i]) && p[rest[i]].value == Num(p, rest)
                 && forall j :: 0 <= j < i ==> !HasNumber(p, rest[j]);
        assert HasNumber(p, keys[i + 1]);
      }
    }
  }

  /** What reading a message comes to, in terms of its name and fields. */
  lemma ReadGives(m: Message, p: map<string, Json>, run: Option<string>, step: Option<string>)
    requires Carries(m, p) && Gives(p, ["run_id", "runId"], run) && Gives(p, ["step_id", "stepId"], step)
    ensures Read(m).kind == KindOf(m.name, p) && Read(m).run == run && Read(m).step == step && Read(m).now == m.now
    ensures Gives(p, ["started_at", "startedAt"], Read(m).startedAt)
    ensures Gives(p, ["completed_at", "finished_at"], Read(m).finishedAt)
  {
    StrGives(p, ["run_id", "runId"], run);
    StrGives(p, ["step_id", "stepId"], step);
    StrGives(p, ["started_at", "startedAt"], Read(m).startedAt);
    StrGives(p, ["completed_at", "finished_at"], Read(m).finishedAt);
    hide KindOf, Str, Gives;
  }

  lemma OneText(p: map<string, Json>, keys: seq<string>, v: Option<string>, w: Option<string>)
    requires Gives(p, keys, v) && Gives(p, keys, w)
    ensures v == w
  {
    StrGives(p, keys, v);
    StrGives(p, keys, w);
  }

  /** The status that a message gives to the run it names, if it gives one. */
  function StatusNamed(m: Message): Option<Status> {
    if !m.data.IsObject() then None
    else
      var p := Inner(m.data.Fields());
      if m.name == "run.started" || m.name == "run.resumed" then Some(Running)
      else if m.name == "run.paused" then Some(Paused)
      else if m.name == "run.completed" then Some(Completed)
      else if m.name == "run.failed" then Some(Failed)
      else if m.name == "run.cancelled" then Some(Cancelled)
      else if m.name != "story.status_updated" then None
      else if Gives(p, ["status"], Some("completed")) then Some(Completed)
      else if Gives(p, ["status"], Some("failed")) then Some(Failed)
      else if Gives(p, ["status"], Some("cancelled")) then Some(Cancelled)
      else None
  }

  lemma NamedInRead(m: Message, run: string, step: string)
    ensures (Read(m).run == Some(run) <==> NamesRun(m, run)) && (NamesRun(m, run) ==> m.data.IsObject())
    ensures Read(m).step == Some(step) <==> NamesStep(m, step)
  {
    hide KindOf, Str, Gives, Inner;
    if m.data.IsObject() {
      StrGives(Inner(m.data.Fields()), ["run_id", "runId"], Some(run));
      StrGives(Inner(m.data.Fields()), ["step_id", "stepId"], Some(step));
    }
  }

  lemma StatusInRead(m: Message)
    ensures
      var kind := Read(m).kind;
      && (kind.RunStarted? <==> m.data.IsObject() && m.name == "run.started")
      && (kind.StepStarted? <==> m.data.IsObject() && m.name == "step.started")
      && (kind.RunEnded? <==> m.data.IsObject() && m.name in {"run.completed", "run.failed", "run.cancelled"})
      && (kind.StepEnded? <==> m.data.IsObject() && m.name in {"step.completed", "step.failed", "step.cancelled"})
      && (kind.StoryEnded? <==> m.name == "story.status_updated" && StatusNamed(m).Some?)
      && (StatusNamed(m) == match kind
                            case RunStarted => Some(Running)
                            case RunResumed => Some(Running)
                            case RunPaused => Some(Paused)
                            case RunEnded(status) => Some(status)
                            case StoryEnded(status) => Some(status)
                            case _ => None)
  {
    if m.data.IsObject() {
      KindNamed(m.name, Inner(m.data.Fields()));
      StoryNamed(m.name, Inner(m.data.Fields()));
    }
    hide KindOf, Gives, Inner, Str;
  }

  lemma KindNamed(name: string, p: map<string, Json>)
    ensures
      var kind := KindOf(name, p);
      && (kind.RunStarted? <==> name == "run.started") && (kind.RunResumed? <==> name == "run.resumed")
      && (kind.RunPaused? <==> name == "run.paused") && (kind.StepStarted? <==> name == "step.started")
      && (kind == RunEnded(Completed) <==> name == "run.completed")
      && (kind == RunEnded(Failed) <==> name == "run.failed")
      && (kind == RunEnded(Cancelled) <==> name == "run.cancelled")
      && (kind.RunEnded? <==> name in {"run.completed", "run.failed", "run.cancelled"})
      && (kind.StepEnded? <==> name in {"step.completed", "step.failed", "step.cancelled"})
  {
    hide Str, Num, TerminalNamed;
  }

  lemma StoryNamed(name: string, p: map<string, Json>)
    ensures
      var kind := KindOf(name, p);
      && (kind == StoryEnded(Completed) <==> name == "story.status_updated" && Gives(p, ["status"], Some("completed")))
      && (kind == StoryEnded(Failed) <==> name == "story.status_updated" && Gives(p, ["status"], Some("failed")))
      && (kind == StoryEnded(Cancelled) <==> name == "story.status_updated" && Gives(p, ["status"], Some("cancelled")))
      && (kind.StoryEnded? ==> Terminal(kind.status))
  {
    StrGives(p, ["status"], Some("completed"));
    StrGives(p, ["status"], Some("failed"));
    StrGives(p, ["status"], Some("cancelled"));
    hide Str, Num, Gives;
  }

  lemma OneNumber(p: map<string, Json>, keys: seq<string>, v: real, w: real)
    requires GivesNumber(p, keys, v) && GivesNumber(p, keys, w)
    ensures v == w
  {
  }

  // ----- What an event means to one run and to one step -----

  /** Whether the event makes sure that a signal for this run exists. */
  predicate TouchesRun(e: Event, run: string) {
    && e.run == Some(run)
    && match e.kind
       case Ignored => false
       case StepStarted => e.step.Some?
       case StepEnded(_) => e.step.Some?
       case _ => true
  }

  predicate TouchesStep(e: Event, step: string) {
    e.step == Some(step) && (e.kind.StepStarted? || e.kind.StepEnded? || e.kind.GateOpens? || e.kind.GateCloses?)
  }

  function RunAfter(r: RunSignal, e: Event): RunSignal {
    match e.kind
    case RunStarted =>
      r.(status := Running, startedAt := Or(Or(e.startedAt, r.startedAt), Some(e.now)), finishedAt := None,
        awaitingGate := false)
    case RunResumed => r.(status := Running, awaitingGate := false)
    case RunPaused => r.(status := Paused, awaitingGate := true)
    case RunEnded(status) =>
      r.(status := status, finishedAt := Or(e.finishedAt, Some(e.now)), activeStepId := None, awaitingGate := false)
    case StepStarted => r.(activeStepId := e.step)
    case StepEnded(_) => if r.activeStepId == e.step then r.(activeStepId := None) else r
    case Cost(usd, input, output) =>
      r.(inputTokens := r.inputTokens + input, outputTokens := r.outputTokens + output, costUsd := r.costUsd + usd)
    case GateOpens => r.(awaitingGate := true)
    case GateCloses => r.(awaitingGate := false)
    case StoryEnded(status) => r.(status := status, finishedAt := Or(r.finishedAt, Some(e.now)))
    case Ignored => r
  }

  function StepAfter(s: StepSignal, e: Event): StepSignal {
    match e.kind
    case StepStarted =>
      s.(status := Running, startedAt := Or(Or(e.startedAt, s.startedAt), Some(e.now)), finishedAt := None,
        awaitingGate := false)
    case StepEnded(status) => s.(status := status, finishedAt := Or(e.finishedAt, Some(e.now)), awaitingGate := false)
    case GateOpens => s.(awaitingGate := true)
    case GateCloses => s.(awaitingGate := false)
    case _ => s
  }

  datatype State = State(runs: map<string, RunSignal>, steps: map<string, StepSignal>)

  const EMPTY := State(map[], map[])

  function RunOf(s: State, run: string): RunSignal {
    if run in s.runs then s.runs[run] else NewRun(run)
  }

  function StepOf(s: State, step: string, run: string): StepSignal {
    if step in s.steps then s.steps[step] else NewStep(step, run)
  }

  function Reduce(s: State, e: Event): State {
    State(
      if e.run.Some? && TouchesRun(e, e.run.value)
      then s.runs[e.run.value := RunAfter(RunOf(s, e.run.value), e)] else s.runs,
      if e.step.Some? && TouchesStep(e, e.step.value)
      then s.steps[e.step.value := StepAfter(StepOf(s, e.step.value, Or(e.run, Some("")).value), e)] else s.steps)
  }

  lemma SecondUpdateWins<K, V>(m: map<K, V>, k: K, a: V, b: V)
    ensures m[k := a][k := b] == m[k := b]
  {
  }

  class RuntimeState {
    var runs: map<string, RunSignal>
    var steps: map<string, StepSignal>

    constructor ()
      ensures View() == EMPTY
    {
      runs, steps := map[], map[];
    }

    ghost function View(): State
      reads this
    {
      State(runs, steps)
    }

    method EnsureRun(runId: string) returns (r: RunSignal)
      modifies this`runs
      ensures r == RunOf(old(View()), runId) && runs == old(runs)[runId := r]
    {
      if runId in runs {
        r := runs[runId];
      } else {
        r := NewRun(runId);
      }
      runs := runs[runId := r];
    }

    method EnsureStep(stepId: string, runId: string) returns (s: StepSignal)
      modifies this`steps
      ensures s == StepOf(old(View()), stepId, runId) && steps == old(steps)[stepId := s]
    {
      if stepId in steps {
        s := steps[stepId];
      } else {
        s := NewStep(stepId, runId);
      }
      steps := steps[stepId := s];
    }

    /** The reducer itself: each branch updates the records in place. */
    method ReduceRuntimeEvent(m: Message)
      modifies this
      ensures View() == Reduce(old(View()), Read(m)) == Run(old(View()), [m])
    {
      RunOne(View(), m);
      if !m.data.IsObject() {
        return;
      }
      var e := Read(m);
      hide Read, Reduce, Run;
      match e.kind {
        case StepStarted => StartStep(e);
        case StepEnded(status) => EndStep(e, status);
        case GateOpens => SetGate(e, true);
        case GateCloses => SetGate(e, false);
        case _ => ReduceRunEvent(e);
      }
    }

    method StartStep(e: Event)
      requires e.kind.StepStarted?
      modifies this
      ensures View() == Reduce(old(View()), e)
    {
      if e.step.None? {
        return;
      }
      var s := EnsureStep(e.step.value, Or(e.run, Some("")).value);
      SecondUpdateWins(old(steps), e.step.value, s, StepAfter(s, e));
      s := s.(status := Running, startedAt := Or(Or(e.startedAt, s.startedAt), Some(e.now)));
      steps := steps[e.step.value := s.(finishedAt := None, awaitingGate := false)];
      if e.run.Some? {
        var r := EnsureRun(e.run.value);
        SecondUpdateWins(old(runs), e.run.value, r, r.(activeStepId := e.step));
        runs := runs[e.run.value := r.(activeStepId := e.step)];
      }
    }

    method EndStep(e: Event, status: Status)
      requires e.kind == StepEnded(status)
      modifies this
      ensures View() == Reduce(old(View()), e)
    {
      if e.step.None? {
        return;
      }
      var s := EnsureStep(e.step.value, Or(e.run, Some("")).value);
      SecondUpdateWins(old(steps), e.step.value, s, StepAfter(s, e));
      s := s.(status := status, finishedAt := Or(e.finishedAt, Some(e.now)));
      steps := steps[e.step.value := s.(awaitingGate := false)];
      if e.run.Some? {
        var r := EnsureRun(e.run.value);
        SecondUpdateWins(old(runs), e.run.value, r, r.(activeStepId := None));
        if r.activeStepId == e.step {
          runs := runs[e.run.value := r.(activeStepId := None)];
        }
      }
    }

    method SetGate(e: Event, awaiting: bool)
      requires e.kind == if awaiting then GateOpens else GateCloses
      modifies this
      ensures View() == Reduce(old(View()), e)
    {
      if e.run.Some? {
        var r := EnsureRun(e.run.value);
        SecondUpdateWins(old(runs), e.run.value, r, r.(awaitingGate := awaiting));
        runs := runs[e.run.value := r.(awaitingGate := awaiting)];
      }
      if e.step.Some? {
        var s := EnsureStep(e.step.value, Or(e.run, Some("")).value);
        SecondUpdateWins(old(steps), e.step.value, s, s.(awaitingGate := awaiting));
        steps := steps[e.step.value := s.(awaitingGate := awaiting)];
      }
    }

    /** The branches that concern a run only. */
    method ReduceRunEvent(e: Event)
      requires !e.kind.StepStarted? && !e.kind.StepEnded? && !e.kind.GateOpens? && !e.kind.GateCloses?
      modifies this
      ensures View() == Reduce(old(View()), e)
    {
      if e.kind.Ignored? || e.run.None? {
        return;
      }
      var r := EnsureRun(e.run.value);
      match e.kind {
        case RunStarted =>
          r := r.(status := Running, startedAt := Or(Or(e.startedAt, r.startedAt), Some(e.now)));
          r := r.(finishedAt := None, awaitingGate := false);
        case RunResumed => r := r.(status := Running, awaitingGate := false);
        case RunPaused => r := r.(status := Paused, awaitingGate := true);
        case RunEnded(status) =>
          r := r.(status := status, finishedAt := Or(e.finishedAt, Some(e.now)));
          r := r.(activeStepId := None, awaitingGate := false);
        case Cost(usd, input, output) =>
          r := r.(inputTokens := r.inputTokens + input);
          r := r.(outputTokens := r.outputTokens + output);
          r := r.(costUsd := r.costUsd + usd);
        case StoryEnded(status) =>
          r := r.(status := status);
          if r.finishedAt.None? {
            r := r.(finishedAt := Some(e.now));
          }
      }
      runs := runs[e.run.value := r];
    }

    /**
     Seeds a run's timing from REST.  What the stream has said stays: only an absent start or
     finish time and a status still pending are filled in, of this one run.
     */
    method HydrateRunStartedAt(runId: string, startedAt: Option<string>, completedAt: Option<string>,
                               status: Option<Status>)
      modifies this`runs
      ensures runId == "" || startedAt.None? ==> runs == old(runs)
      ensures forall other :: other != runId ==> RunOf(View(), other) == RunOf(old(View()), other)
      ensures
        var was, now := RunOf(old(View()), runId), RunOf(View(), runId);
        && (was.startedAt.Some? ==> now.startedAt == was.startedAt)
        && (was.finishedAt.Some? ==> now.finishedAt == was.finishedAt)
        && (!was.status.Pending? ==> now.status == was.status)
        && UsageOf(now) == UsageOf(was) && now.activeStepId == was.activeStepId && now.awaitingGate == was.awaitingGate
      ensures runId != "" && startedAt.Some? ==>
        var was, now := RunOf(old(View()), runId), RunOf(View(), runId);
        && runId in runs && now.startedAt.Some?
        && (was.finishedAt.None? ==> now.finishedAt == completedAt)
        && (was.status.Pending? && status.Some? ==> now.status == status.value)
      ensures View() == Hydrated(old(View()), runId, startedAt, completedAt, status)
    {
      if runId == "" || startedAt.None? {
        return;
      }
      var r := EnsureRun(runId);
      ghost var ensured := r;
      if r.startedAt.None? {
        r := r.(startedAt := startedAt);
      }
      if r.finishedAt.None? && completedAt.Some? {
        r := r.(finishedAt := completedAt);
      }
      if status.Some? && r.status.Pending? {
        r := r.(status := status.value);
      }
      SecondUpdateWins(old(runs), runId, ensured, r);
      runs := runs[runId := r];
    }
  }

  function Hydrated(s: State, runId: string, startedAt: Option<string>, completedAt: Option<string>,
                    status: Option<Status>): State
  {
    if runId == "" || startedAt.None? then s
    else
      var r := RunOf(s, runId);
      s.(runs := s.runs[runId := r.(
           startedAt := Or(r.startedAt, startedAt),
           finishedAt := Or(r.finishedAt, completedAt),
           status := if r.status.Pending? then Or(status, Some(Pending)).value else r.status)])
  }

  // ----- Traces -----

  /** The state after a whole trace of messages. */
  function Run(s: State, trace: seq<Message>): State {
    if trace == [] then s
    else
      var n := |trace| - 1;
      Reduce(Run(s, trace[..n]), Read(trace[n]))
  }

  lemma RunOne(s: State, m: Message)
    ensures Run(s, [m]) == Reduce(s, Read(m))
  {
    assert [m][..0] == [];
  }

  // ----- Signals are well formed -----

  /**
   A running step is its owner's business: the active step of a run belongs to it and
   runs, a step is terminal exactly when it has a finish time, and a terminal run has one.
   */
  ghost predicate RunOk(s: State, run: string)
    requires run in s.runs
  {
    var r := s.runs[run];
    && (Terminal(r.status) ==> r.finishedAt.Some?)
    && (r.activeStepId.Some? ==>
          var step := r.activeStepId.value;
          step in s.steps && s.steps[step].runId == run && s.steps[step].status == Running)
  }

  ghost predicate StepOk(s: StepSignal, step: string, owner: map<string, string>) {
    && (Terminal(s.status) <==> s.finishedAt.Some?)
    && step in owner && s.runId == owner[step]
  }

  ghost predicate Inv(s: State, owner: map<string, string>) {
    && (forall run :: run in s.runs ==> RunOk(s, run))
    && (forall step :: step in s.steps ==> StepOk(s.steps[step], step, owner))
  }

  /** An event about a step carries the run that owns it. */
  predicate CarriesOwner(e: Event, owner: map<string, string>) {
    e.step.Some? && TouchesStep(e, e.step.value) ==> e.step.value in owner && e.run == Some(owner[e.step.value])
  }

  lemma ReduceKeepsStepOk(s: State, e: Event, owner: map<string, string>, step: string)
    requires Inv(s, owner) && CarriesOwner(e, owner) && step in Reduce(s, e).steps
    requires e.kind.StepEnded? ==> Terminal(e.kind.status)
    ensures StepOk(Reduce(s, e).steps[step], step, owner)
  {
    assert step in s.steps ==> StepOk(s.steps[step], step, owner);
    assert !TouchesStep(e, step) ==> Reduce(s, e).steps[step] == s.steps[step];
  }

  lemma ReduceKeepsRunOk(s: State, e: Event, owner: map<string, string>, run: string)
    requires Inv(s, owner) && CarriesOwner(e, owner) && run in Reduce(s, e).runs
    requires e.kind.RunEnded? || e.kind.StoryEnded? ==> Terminal(e.kind.status)
    ensures RunOk(Reduce(s, e), run)
  {
    ReduceRun(s, e, run);
    assert run in s.runs ==> RunOk(s, run);
    FinishTimeKept(RunOf(s, run), e);
    if RunOf(Reduce(s, e), run).activeStepId.Some? {
      ActiveStepKept(s, e, owner, run, RunOf(Reduce(s, e), run).activeStepId.value);
    }
    hide Reduce, RunAfter, Inv, CarriesOwner;
  }

  lemma ActiveStepKept(s: State, e: Event, owner: map<string, string>, run: string, step: string)
    requires Inv(s, owner) && CarriesOwner(e, owner) && RunOf(Reduce(s, e), run).activeStepId == Some(step)
    ensures
      var t := Reduce(s, e);
      step in t.steps && t.steps[step].runId == run && t.steps[step].status == Running
  {
    ReduceRun(s, e, run);
    ReduceStep(s, e, step);
    hide Reduce;
    assert run in s.runs ==> RunOk(s, run);
    assert step in s.steps ==> StepOk(s.steps[step], step, owner);
  }

  lemma FinishTimeKept(r: RunSignal, e: Event)
    requires Terminal(r.status) ==> r.finishedAt.Some?
    requires e.kind.RunEnded? || e.kind.StoryEnded? ==> Terminal(e.kind.status)
    ensures Terminal(RunAfter(r, e).status) ==> RunAfter(r, e).finishedAt.Some?
  {
  }

  lemma ReduceKeepsInv(s: State, e: Event, owner: map<string, string>)
    requires Inv(s, owner) && CarriesOwner(e, owner)
    requires e.kind.RunEnded? || e.kind.StepEnded? || e.kind.StoryEnded? ==> Terminal(e.kind.status)
    ensures Inv(Reduce(s, e), owner)
  {
    var t := Reduce(s, e);
    forall run | run in t.runs ensures RunOk(t, run) {
      ReduceKeepsRunOk(s, e, owner, run);
    }
    forall step | step in t.steps ensures StepOk(t.steps[step], step, owner) {
      ReduceKeepsStepOk(s, e, owner, step);
    }
  }

  lemma KindIsTerminal(m: Message)
    ensures
      var kind := Read(m).kind;
      kind.RunEnded? || kind.StepEnded? || kind.StoryEnded? ==> Terminal(kind.status)
  {
    hide Str, Num, Inner;
  }

  lemma {:induction false} RunKeepsInv(s: State, trace: seq<Message>, owner: map<string, string>)
    requires Inv(s, owner) && forall m :: m in trace ==> CarriesOwner(Read(m), owner)
    ensures Inv(Run(s, trace), owner)
  {
    if trace != [] {
      var n := |trace| - 1;
      RunKeepsInv(s, trace[..n], owner);
      KindIsTerminal(trace[n]);
      hide Read, Reduce, Inv;
      ReduceKeepsInv(Run(s, trace[..n]), Read(trace[n]), owner);
    }
  }

  /** From the start, in every trace whose step events carry their owning run, every signal is well formed. */
  lemma SignalsAreSound(trace: seq<Message>, owner: map<string, string>)
    requires forall m :: m in trace ==> CarriesOwner(Read(m), owner)
    ensures
      var s := Run(EMPTY, trace);
      && (forall run :: run in s.runs ==> RunOk(s, run))
      && (forall step :: step in s.steps ==> StepOk(s.steps[step], step, owner))
  {
    RunKeepsInv(EMPTY, trace, owner);
  }

  // ----- What a signal says about the trace -----

  lemma ReduceRun(s: State, e: Event, run: string)
    ensures RunOf(Reduce(s, e), run) == if TouchesRun(e, run) then RunAfter(RunOf(s, run), e) else RunOf(s, run)
  {
  }

  lemma ReduceStep(s: State, e: Event, step: string)
    ensures
      var t := Reduce(s, e);
      if TouchesStep(e, step)
      then step in t.steps && t.steps[step] == StepAfter(StepOf(s, step, Or(e.run, Some("")).value), e)
      else (step in t.steps <==> step in s.steps) && (step in t.steps ==> t.steps[step] == s.steps[step])
  {
  }

  datatype Usage = Usage(usd: real, input: real, output: real)

  function UsageOf(r: RunSignal): Usage {
    Usage(r.costUsd, r.inputTokens, r.outputTokens)
  }

  function Plus(a: Usage, b: Usage): Usage {
    Usage(a.usd + b.usd, a.input + b.input, a.output + b.output)
  }

  /** What one event charges to a run. */
  function Charge(e: Event, run: string): Usage {
    if e.kind.Cost? && e.run == Some(run) then Usage(e.kind.usd, e.kind.input, e.kind.output) else Usage(0.0, 0.0, 0.0)
  }

  /** The sum over the cost events of one run in the trace. */
  function Spent(trace: seq<Message>, run: string): Usage {
    if trace == [] then Usage(0.0, 0.0, 0.0)
    else
      var n := |trace| - 1;
      Plus(Spent(trace[..n], run), Charge(Read(trace[n]), run))
  }

  lemma ReduceCharges(s: State, e: Event, run: string)
    ensures UsageOf(RunOf(Reduce(s, e), run)) == Plus(UsageOf(RunOf(s, run)), Charge(e, run))
  {
    ReduceRun(s, e, run);
    hide Reduce, RunOf;
    OnlyCostCharges(RunOf(s, run), e);
    PlusNothing(UsageOf(RunOf(s, run)));
    hide RunAfter, UsageOf, Plus;
  }

  lemma OnlyCostCharges(r: RunSignal, e: Event)
    ensures e.kind.Cost? ==> UsageOf(RunAfter(r, e)) == Plus(UsageOf(r), Usage(e.kind.usd, e.kind.input, e.kind.output))
    ensures !e.kind.Cost? ==> UsageOf(RunAfter(r, e)) == UsageOf(r)
  {
  }

  lemma PlusIsAssociative(a: Usage, b: Usage, c: Usage)
    ensures Plus(Plus(a, b), c) == Plus(a, Plus(b, c))
  {
  }

  lemma PlusNothing(a: Usage)
    ensures Plus(a, Usage(0.0, 0.0, 0.0)) == a
  {
  }

  /** A run's totals grow by exactly its own cost events; no status change resets them. */
  lemma {:induction false} TotalsAreTheSum(s: State, trace: seq<Message>, run: string)
    ensures UsageOf(RunOf(Run(s, trace), run)) == Plus(UsageOf(RunOf(s, run)), Spent(trace, run))
  {
    hide Read, Reduce, Plus, UsageOf, RunOf, Charge;
    var was := UsageOf(RunOf(s, run));
    if trace == [] {
      PlusNothing(was);
    } else {
      var n := |trace| - 1;
      TotalsAreTheSum(s, trace[..n], run);
      ReduceCharges(Run(s, trace[..n]), Read(trace[n]), run);
      PlusIsAssociative(was, Spent(trace[..n], run), Charge(Read(trace[n]), run));
    }
  }

  /** What establishes a fact about a signal, and what undoes it. */
  datatype Word = Word(says: Message -> bool, unsays: Message -> bool)

  function Finished(run: string): Word {
    Word(m => NamesRun(m, run) && StatusNamed(m).Some? && Terminal(StatusNamed(m).value),
         m => NamesRun(m, run) && m.name == "run.started")
  }

  function HasStatus(run: string, status: Status): Word {
    Word(m => NamesRun(m, run) && StatusNamed(m) == Some(status), m => NamesRun(m, run) && StatusNamed(m).Some?)
  }

  function Active(run: string, step: string): Word {
    Word(m => NamesRun(m, run) && m.name == "step.started" && NamesStep(m, step), m => Displaces(m, run, step))
  }

  /** What replaces or clears a run's active step `step`. */
  predicate Displaces(m: Message, run: string, step: string) {
    && NamesRun(m, run)
    && (|| m.name in {"run.completed", "run.failed", "run.cancelled"}
        || (m.name == "step.started" && !Gives(Inner(m.data.Fields()), ["step_id", "stepId"], None))
        || (m.name in {"step.completed", "step.failed", "step.cancelled"} && NamesStep(m, step)))
  }

  lemma DisplacesInRead(m: Message, run: string, step: string)
    ensures
      var e := Read(m);
      && (Displaces(m, run, step) <==>
            && e.run == Some(run)
            && (e.kind.RunEnded? || (e.kind.StepStarted? && e.step.Some?)
                || (e.kind.StepEnded? && e.step == Some(step))))
      && (Active(run, step).says(m) <==> e.kind.StepStarted? && e.run == Some(run) && e.step == Some(step))
  {
    NamedInRead(m, run, step);
    StatusInRead(m);
    if m.data.IsObject() { StrGives(Inner(m.data.Fields()), ["step_id", "stepId"], None); }
    hide KindOf, Str, Gives, Inner, StatusNamed;
  }

  /** Message `i` says it and no later message unsays it. */
  ghost predicate LastWord(trace: seq<Message>, i: int, w: Word) {
    0 <= i < |trace| && w.says(trace[i]) && forall j :: i < j < |trace| ==> !w.unsays(trace[j])
  }

  ghost predicate Said(trace: seq<Message>, w: Word) {
    exists i :: LastWord(trace, i, w)
  }

  lemma SaidOneMore(trace: seq<Message>, w: Word)
    requires trace != []
    ensures
      var m := trace[|trace| - 1];
      Said(trace, w) <==> w.says(m) || (!w.unsays(m) && Said(trace[..|trace| - 1], w))
  {
    var n := |trace| - 1;
    if i :| LastWord(trace, i, w) {
      if i < n {
        assert LastWord(trace[..n], i, w);
      }
    }
    if w.says(trace[n]) {
      assert LastWord(trace, n, w);
    } else if i :| !w.unsays(trace[n]) && LastWord(trace[..n], i, w) {
      assert LastWord(trace, i, w);
    }
  }

  /** A run shows a finish time exactly when it ended after its last start; pausing and resuming do not clear it. */
  lemma {:induction false} FinishedSinceLastStart(trace: seq<Message>, run: string)
    ensures RunOf(Run(EMPTY, trace), run).finishedAt.Some? <==> Said(trace, Finished(run))
  {
    hide Read, Reduce, NamesRun, NamesStep, StatusNamed;
    if trace != [] {
      var n := |trace| - 1;
      FinishedSinceLastStart(trace[..n], run);
      SaidOneMore(trace, Finished(run));
      NamedInRead(trace[n], run, "");
      StatusInRead(trace[n]);
      KindIsTerminal(trace[n]);
      ReduceRun(Run(EMPTY, trace[..n]), Read(trace[n]), run);
    }
  }

  lemma OnlySettersSet(r: RunSignal, m: Message)
    ensures RunAfter(r, Read(m)).status == if StatusNamed(m).Some? then StatusNamed(m).value else r.status
  {
    StatusInRead(m);
    hide Read, StatusNamed;
  }

  /** A run's status is Pending until a message sets it, and from then on the one last set. */
  lemma {:induction false} StatusIsTheLastSet(trace: seq<Message>, run: string, status: Status)
    ensures Said(trace, HasStatus(run, status)) ==> RunOf(Run(EMPTY, trace), run).status == status
    ensures (forall i :: 0 <= i < |trace| ==> !(NamesRun(trace[i], run) && StatusNamed(trace[i]).Some?))
      ==> RunOf(Run(EMPTY, trace), run).status == Pending
  {
    hide Read, Reduce, NamesRun, NamesStep, StatusNamed;
    if trace != [] {
      var n := |trace| - 1;
      StatusIsTheLastSet(trace[..n], run, status);
      SaidOneMore(trace, HasStatus(run, status));
      NamedInRead(trace[n], run, "");
      StatusInRead(trace[n]);
      ReduceRun(Run(EMPTY, trace[..n]), Read(trace[n]), run);
      OnlySettersSet(RunOf(Run(EMPTY, trace[..n]), run), trace[n]);
      hide RunAfter;
    }
  }

  /** A step is its run's active step exactly when its start is the run's last word on the matter. */
  lemma {:induction false} ActiveIsTheLastStarted(trace: seq<Message>, run: string, step: string)
    ensures RunOf(Run(EMPTY, trace), run).activeStepId == Some(step) <==> Said(trace, Active(run, step))
  {
    hide Read, Reduce, Displaces, NamesRun, NamesStep;
    if trace != [] {
      var n := |trace| - 1;
      ActiveIsTheLastStarted(trace[..n], run, step);
      SaidOneMore(trace, Active(run, step));
      DisplacesInRead(trace[n], run, step);
      ReduceRun(Run(EMPTY, trace[..n]), Read(trace[n]), run);
    }
  }

  /** The messages that name one run. */
  function About(trace: seq<Message>, run: string): seq<Message> {
    if trace == [] then []
    else
      var n := |trace| - 1;
      if Read(trace[n]).run == Some(run) then About(trace[..n], run) + [trace[n]] else About(trace[..n], run)
  }

  /** Runs do not interfere: a run's signal is what its own messages alone would have made it. */
  lemma {:induction false} RunsDoNotInterfere(trace: seq<Message>, run: string)
    ensures RunOf(Run(EMPTY, trace), run) == RunOf(Run(EMPTY, About(trace, run)), run)
  {
    hide Read, Reduce;
    if trace != [] {
      var n := |trace| - 1;
      RunsDoNotInterfere(trace[..n], run);
      ReduceRun(Run(EMPTY, trace[..n]), Read(trace[n]), run);
      var about := About(trace[..n], run);
      if Read(trace[n]).run == Some(run) {
        assert (about + [trace[n]])[..|about|] == about;
        ReduceRun(Run(EMPTY, about), Read(trace[n]), run);
      }
    }
  }

  // ----- Where the invariant stops -----

  /** A gate on a step announced without its run. */
  const UNOWNED_GATE := Message("hitl.pending", Object(map["step_id" := Text("s")]), "")

  const STEP_START := Message("step.started", Object(map["run_id" := Text("r"), "step_id" := Text("s")]), "")

  lemma ReadUnownedGate()
    ensures Read(UNOWNED_GATE) == Event(GateOpens, None, Some("s"), None, None, "")
  {
    var p := map["step_id" := Text("s")];
    StrOf(p);
    KindsNamed(p);
    assert "payload" !in p;
    assert FirstText(p, "run_id", "runId") == None && FirstText(p, "step_id", "stepId") == Some("s");
    assert FirstText(p, "started_at", "startedAt") == None && FirstText(p, "completed_at", "finished_at") == None;
    hide Str, KindOf, FirstText;
  }

  lemma ReadStepStart()
    ensures Read(STEP_START) == Event(StepStarted, Some("r"), Some("s"), None, None, "")
  {
    var p := map["run_id" := Text("r"), "step_id" := Text("s")];
    hide Str, KindOf, FirstText;
    StrOf(p);
    KindsNamed(p);
    StartFields(p);
  }

  lemma StartFields(p: map<string, Json>)
    requires p == map["run_id" := Text("r"), "step_id" := Text("s")]
    ensures "payload" !in p
    ensures FirstText(p, "run_id", "runId") == Some("r") && FirstText(p, "step_id", "stepId") == Some("s")
    ensures FirstText(p, "started_at", "startedAt") == None && FirstText(p, "completed_at", "finished_at") == None
  {
  }

  lemma KindsNamed(p: map<string, Json>)
    ensures KindOf("hitl.pending", p) == GateOpens && KindOf("step.started", p) == StepStarted
  {
  }

  lemma StrOf(p: map<string, Json>)
    ensures Str(p, ["run_id", "runId"]) == FirstText(p, "run_id", "runId")
    ensures Str(p, ["step_id", "stepId"]) == FirstText(p, "step_id", "stepId")
    ensures Str(p, ["started_at", "startedAt"]) == FirstText(p, "started_at", "startedAt")
    ensures Str(p, ["completed_at", "finished_at"]) == FirstText(p, "completed_at", "finished_at")
  {
    assert ["run_id", "runId"][1..] == ["runId"] && ["step_id", "stepId"][1..] == ["stepId"];
    assert ["started_at", "startedAt"][1..] == ["startedAt"] && ["completed_at", "finished_at"][1..] == ["finished_at"];
  }

  function FirstText(p: map<string, Json>, key: string, alias: string): Option<string> {
    if key in p && p[key].Text? && p[key].text != "" then Some(p[key].text)
    else if alias in p && p[alias].Text? && p[alias].text != "" then Some(p[alias].text)
    else None
  }

  /**
   The ownership condition is needed: the unowned gate binds the step to no run, and the
   run that later starts it shows a foreign active step.
   */
  lemma StepsWithoutOwner()
    ensures
      var s := Run(EMPTY, [UNOWNED_GATE, STEP_START]);
      "r" in s.runs && "s" in s.steps && s.runs["r"].activeStepId == Some("s") && s.steps["s"].runId == ""
  {
    ReadUnownedGate();
    ReadStepStart();
    hide Read;
    var trace := [UNOWNED_GATE, STEP_START];
    assert trace[..1] == [UNOWNED_GATE] && trace[..1][..0] == [];
    assert Run(EMPTY, [UNOWNED_GATE]) == Reduce(EMPTY, Read(UNOWNED_GATE));
    assert Run(EMPTY, trace) == Reduce(Run(EMPTY, trace[..1]), Read(STEP_START));
  }

  /**
   Seeding from REST keeps the terminal-means-finished rule exactly when it does not adopt
   a terminal status for a run of which neither side knows a finish time.
   */
  lemma HydrationKeepsFinishTimes(s: State, runId: string, startedAt: Option<string>, completedAt: Option<string>,
                                  status: Option<Status>)
    requires runId in s.runs ==> RunOk(s, runId)
    ensures
      var t := Hydrated(s, runId, startedAt, completedAt, status);
      (runId in t.runs && Terminal(t.runs[runId].status) ==> t.runs[runId].finishedAt.Some?) <==>
        !(runId != "" && startedAt.Some? && RunOf(s, runId).status.Pending? && status.Some? && Terminal(status.value)
          && completedAt.None? && RunOf(s, runId).finishedAt.None?)
  {
    assert runId in s.runs ==> RunOk(s, runId);
  }
}
