/**
 What each event name does to the live signals: for every payload with the fields it needs and
 every earlier state, the state afterwards in full.  Whatever is not mentioned stays.
 */
module RuntimeEvents {
  import opened Options
  import opened RuntimeStream

  /** The message carries `p`, and `p` names this run and this step, if any. */
  predicate Given(m: Message, p: map<string, Json>, run: Option<string>, step: Option<string>) {
    Carries(m, p) && Gives(p, ["run_id", "runId"], run) && Gives(p, ["step_id", "stepId"], step)
  }

  /** How the end of a run is announced, and the end of a step, and the state of a story that ended. */
  predicate RunEndsAs(name: string, status: Status) {
    || (name == "run.completed" && status == Completed)
    || (name == "run.failed" && status == Failed)
    || (name == "run.cancelled" && status == Cancelled)
  }

  predicate StepEndsAs(name: string, status: Status) {
    || (name == "step.completed" && status == Completed)
    || (name == "step.failed" && status == Failed)
    || (name == "step.cancelled" && status == Cancelled)
  }

  predicate StoryEndsAs(word: string, status: Status) {
    || (word == "completed" && status == Completed)
    || (word == "failed" && status == Failed)
    || (word == "cancelled" && status == Cancelled)
  }

  /** A run or a step never heard of shows as pending, with nothing known of it. */
  lemma UnknownIsPending(s: State, run: string, step: string, owner: string)
    ensures run !in s.runs ==> RunOf(s, run) == RunSignal(run, Pending, None, None, 0.0, 0.0, 0.0, None, false)
    ensures step !in s.steps ==> StepOf(s, step, owner) == StepSignal(step, owner, Pending, None, None, false)
  {
  }

  /** The start time a signal shows: the message's own, else the one known, else now. */
  function StartShown(given: Option<string>, known: Option<string>, now: string): Option<string> {
    if given.Some? then given else if known.Some? then known else Some(now)
  }

  function FinishShown(given: Option<string>, now: string): Option<string> {
    if given.Some? then given else Some(now)
  }

  lemma RunStarts(s: State, m: Message, p: map<string, Json>, run: string, step: Option<string>, began: Option<string>)
    requires m.name == "run.started" && Given(m, p, Some(run), step) && Gives(p, ["started_at", "startedAt"], began)
    ensures
      var r := RunOf(s, run);
      Run(s, [m]) == s.(runs := s.runs[run := r.(
        status := Running, startedAt := StartShown(began, r.startedAt, m.now), finishedAt := None,
        awaitingGate := false)])
  {
    ReadGives(m, p, Some(run), step);
    OneText(p, ["started_at", "startedAt"], began, Read(m).startedAt);
    RunOne(s, m);
    hide Read, Run, Gives;
  }

  lemma RunPausesAndResumes(s: State, m: Message, p: map<string, Json>, run: string, step: Option<string>)
    requires Given(m, p, Some(run), step)
    ensures m.name == "run.paused" ==>
      Run(s, [m]) == s.(runs := s.runs[run := RunOf(s, run).(status := Paused, awaitingGate := true)])
    ensures m.name == "run.resumed" ==>
      Run(s, [m]) == s.(runs := s.runs[run := RunOf(s, run).(status := Running, awaitingGate := false)])
  {
    ReadGives(m, p, Some(run), step);
    RunOne(s, m);
    KindNamed(m.name, p);
    hide Read, Run, Gives, KindOf, Carries;
  }

  lemma RunEnds(s: State, m: Message, p: map<string, Json>, run: string, step: Option<string>, ended: Option<string>,
                status: Status)
    requires RunEndsAs(m.name, status) && Given(m, p, Some(run), step)
    requires Gives(p, ["completed_at", "finished_at"], ended)
    ensures
      Run(s, [m]) == s.(runs := s.runs[run := RunOf(s, run).(
        status := status, finishedAt := FinishShown(ended, m.now), activeStepId := None, awaitingGate := false)])
  {
    ReadGives(m, p, Some(run), step);
    OneText(p, ["completed_at", "finished_at"], ended, Read(m).finishedAt);
    RunOne(s, m);
    KindNamed(m.name, p);
    hide Read, Run, Gives, KindOf, Carries;
  }

  /** A step's message is shown even without its run, whose signal is then left alone. */
  lemma StepStarts(s: State, m: Message, p: map<string, Json>, run: Option<string>, step: string, began: Option<string>)
    requires m.name == "step.started" && Given(m, p, run, Some(step)) && Gives(p, ["started_at", "startedAt"], began)
    ensures
      var x := StepOf(s, step, if run.Some? then run.value else "");
      Run(s, [m]) == State(
        if run.None? then s.runs else s.runs[run.value := RunOf(s, run.value).(activeStepId := Some(step))],
        s.steps[step := x.(
          status := Running, startedAt := StartShown(began, x.startedAt, m.now), finishedAt := None,
          awaitingGate := false)])
  {
    ReadGives(m, p, run, Some(step));
    OneText(p, ["started_at", "startedAt"], began, Read(m).startedAt);
    RunOne(s, m);
    hide Read, Run, Gives;
  }

  lemma StepEnds(s: State, m: Message, p: map<string, Json>, run: Option<string>, step: string, ended: Option<string>,
                 status: Status)
    requires StepEndsAs(m.name, status) && Given(m, p, run, Some(step))
    requires Gives(p, ["completed_at", "finished_at"], ended)
    ensures
      var x := StepOf(s, step, if run.Some? then run.value else "");
      var r := RunOf(s, if run.Some? then run.value else "");
      Run(s, [m]) == State(
        if run.None? then s.runs
        else s.runs[run.value := r.(activeStepId := if r.activeStepId == Some(step) then None else r.activeStepId)],
        s.steps[step := x.(status := status, finishedAt := FinishShown(ended, m.now), awaitingGate := false)])
  {
    ReadGives(m, p, run, Some(step));
    OneText(p, ["completed_at", "finished_at"], ended, Read(m).finishedAt);
    RunOne(s, m);
    StepEndKind(m.name, p, status);
    hide Read, Run, Gives, KindOf, Carries, StepEndsAs;
  }

  lemma StepEndKind(name: string, p: map<string, Json>, status: Status)
    requires StepEndsAs(name, status)
    ensures KindOf(name, p) == StepEnded(status)
  {
    hide Str, Num;
  }

  /** What a cost line charges: each number is under the first of its keys that has one, or 0. */
  predicate Charges(p: map<string, Json>, input: real, output: real, usd: real) {
    && GivesNumber(p, ["input_tokens", "inputTokens"], input)
    && GivesNumber(p, ["output_tokens", "outputTokens"], output)
    && GivesNumber(p, ["cost_usd", "cost", "usd", "amount"], usd)
  }

  lemma CostIsAdded(s: State, m: Message, p: map<string, Json>, run: string, step: Option<string>, input: real,
                    output: real, usd: real)
    requires m.name == "log.emitted" && Given(m, p, Some(run), step)
    requires Gives(p, ["type"], Some("cost")) && Charges(p, input, output, usd)
    ensures
      var r := RunOf(s, run);
      Run(s, [m]) == s.(runs := s.runs[run := r.(
        inputTokens := r.inputTokens + input, outputTokens := r.outputTokens + output, costUsd := r.costUsd + usd)])
  {
    ReadGives(m, p, Some(run), step);
    CostKind(p, input, output, usd);
    RunOne(s, m);
    ReduceCost(s, Read(m), run, input, output, usd);
    hide Read, Run, Gives, Charges, KindOf, Carries, Reduce, RunOf;
  }

  lemma ReduceCost(s: State, e: Event, run: string, input: real, output: real, usd: real)
    requires e.kind == Cost(usd, input, output) && e.run == Some(run)
    ensures
      var r := RunOf(s, run);
      Reduce(s, e) == s.(runs := s.runs[run := r.(
        inputTokens := r.inputTokens + input, outputTokens := r.outputTokens + output, costUsd := r.costUsd + usd)])
  {
  }

  lemma CostKind(p: map<string, Json>, input: real, output: real, usd: real)
    requires Gives(p, ["type"], Some("cost")) && Charges(p, input, output, usd)
    ensures KindOf("log.emitted", p) == Cost(usd, input, output)
  {
    StrGives(p, ["type"], Some("cost"));
    OneCharge(p, ["input_tokens", "inputTokens"], input);
    OneCharge(p, ["output_tokens", "outputTokens"], output);
    OneCharge(p, ["cost_usd", "cost", "usd", "amount"], usd);
    hide Str, Num, Gives, GivesNumber;
  }

  lemma OneCharge(p: map<string, Json>, keys: seq<string>, v: real)
    requires GivesNumber(p, keys, v)
    ensures Num(p, keys) == v
  {
    NumGives(p, keys);
    OneNumber(p, keys, v, Num(p, keys));
  }

  predicate SetsGate(name: string, awaiting: bool) {
    if awaiting then name == "hitl.pending" || name == "hitl_gate.pending"
    else
      || name == "hitl.approved" || name == "hitl.rejected"
      || name == "hitl_gate.approved" || name == "hitl_gate.rejected"
  }

  lemma GateIsSet(s: State, m: Message, p: map<string, Json>, run: Option<string>, step: Option<string>, awaiting: bool)
    requires SetsGate(m.name, awaiting) && Given(m, p, run, step)
    ensures
      Run(s, [m]) == State(
        if run.None? then s.runs else s.runs[run.value := RunOf(s, run.value).(awaitingGate := awaiting)],
        if step.None? then s.steps
        else s.steps[step.value :=
          StepOf(s, step.value, if run.Some? then run.value else "").(awaitingGate := awaiting)])
  {
    ReadGives(m, p, run, step);
    RunOne(s, m);
    GateKind(m.name, p, awaiting);
    ReduceGate(s, Read(m), awaiting);
    hide Read, Run, Gives, KindOf, Carries, SetsGate, Reduce, RunOf, StepOf;
  }

  lemma ReduceGate(s: State, e: Event, awaiting: bool)
    requires e.kind == if awaiting then GateOpens else GateCloses
    ensures
      Reduce(s, e) == State(
        if e.run.None? then s.runs else s.runs[e.run.value := RunOf(s, e.run.value).(awaitingGate := awaiting)],
        if e.step.None? then s.steps
        else s.steps[e.step.value :=
          StepOf(s, e.step.value, if e.run.Some? then e.run.value else "").(awaitingGate := awaiting)])
  {
  }

  lemma GateKind(name: string, p: map<string, Json>, awaiting: bool)
    requires SetsGate(name, awaiting)
    ensures KindOf(name, p) == if awaiting then GateOpens else GateCloses
  {
    hide Str, Num;
  }

  /** A story that ended, with a run id riding along: the status shows, and a finish time already known stays. */
  lemma StoryEnds(s: State, m: Message, p: map<string, Json>, run: string, step: Option<string>, word: string,
                  status: Status)
    requires m.name == "story.status_updated" && Given(m, p, Some(run), step)
    requires Gives(p, ["status"], Some(word)) && StoryEndsAs(word, status)
    ensures
      var r := RunOf(s, run);
      Run(s, [m]) == s.(runs := s.runs[run := r.(
        status := status, finishedAt := if r.finishedAt.Some? then r.finishedAt else Some(m.now))])
  {
    ReadGives(m, p, Some(run), step);
    StoryKind(p, word, status);
    RunOne(s, m);
    ReduceStory(s, Read(m), run, status);
    hide Read, Run, Gives, KindOf, Carries, StoryEndsAs, Reduce, RunOf;
  }

  lemma ReduceStory(s: State, e: Event, run: string, status: Status)
    requires e.kind == StoryEnded(status) && e.run == Some(run)
    ensures
      var r := RunOf(s, run);
      Reduce(s, e) == s.(runs := s.runs[run := r.(
        status := status, finishedAt := if r.finishedAt.Some? then r.finishedAt else Some(e.now))])
  {
  }

  lemma StoryKind(p: map<string, Json>, word: string, status: Status)
    requires Gives(p, ["status"], Some(word)) && StoryEndsAs(word, status)
    ensures KindOf("story.status_updated", p) == StoryEnded(status)
  {
    StoryNamed("story.status_updated", p);
    hide KindOf, Gives;
  }

  predicate IsRunEvent(name: string) {
    || name == "run.started" || name == "run.resumed" || name == "run.paused"
    || name == "run.completed" || name == "run.failed" || name == "run.cancelled"
  }

  predicate IsStepEvent(name: string) {
    name == "step.started" || name == "step.completed" || name == "step.failed" || name == "step.cancelled"
  }

  /** The message lacks what its name needs, or its name is none of the eighteen. */
  predicate Inert(name: string, p: map<string, Json>, run: Option<string>, step: Option<string>) {
    if IsRunEvent(name) then run.None?
    else if IsStepEvent(name) then step.None?
    else if name == "log.emitted" then run.None? || !Gives(p, ["type"], Some("cost"))
    else if name == "story.status_updated" then
      || run.None?
      || (&& !Gives(p, ["status"], Some("completed")) && !Gives(p, ["status"], Some("failed"))
          && !Gives(p, ["status"], Some("cancelled")))
    else !SetsGate(name, true) && !SetsGate(name, false)
  }

  lemma NothingElseHappens(s: State, m: Message, p: map<string, Json>, run: Option<string>, step: Option<string>)
    requires m.data.IsObject() ==> Given(m, p, run, step) && Inert(m.name, p, run, step)
    ensures Run(s, [m]) == s
  {
    RunOne(s, m);
    if m.data.IsObject() {
      ReadGives(m, p, run, step);
      InertKind(m.name, p, run, step);
      hide Read, Run, Gives, KindOf, Inert, Carries;
    }
  }

  lemma InertKind(name: string, p: map<string, Json>, run: Option<string>, step: Option<string>)
    requires Inert(name, p, run, step)
    ensures
      match KindOf(name, p)
      case Ignored => true
      case StepStarted => step.None?
      case StepEnded(_) => step.None?
      case GateOpens => false
      case GateCloses => false
      case _ => run.None?
  {
    StrGives(p, ["type"], Some("cost"));
    StoryNamed(name, p);
    hide Str, Num, Gives;
  }
}
