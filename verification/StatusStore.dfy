/**
 The in-memory callback status store: one capacity-1 channel per step, found or
 created under a mutex, written by SetStatus and read by WaitForStatus.

 `Table` is the mutex-guarded map together with the channels it has handed out.
 `CallbackStatusStore` is the object with its fields updated in place; each of its
 methods is one atomic region of the original and is specified by a function on
 tables.  `Next` interleaves those regions for any number of concurrent SetStatus
 calls and one waiter per step.
 */
module StatusStore {
  import opened Options

  type StepId = string
  type ChanId = nat

  datatype Status = Status(exitCode: int, errMsg: string)

  /** A buffered channel of capacity one.  `owner` is the step it was made for. */
  datatype Channel = Channel(owner: StepId, buffer: Option<Status>)

  datatype Table = Table(channels: map<StepId, ChanId>, heap: seq<Channel>)

  const EMPTY_TABLE := Table(map[], [])

  ghost predicate WellFormed(t: Table) {
    forall step :: step in t.channels ==>
      t.channels[step] < |t.heap| && t.heap[t.channels[step]].owner == step
  }

  function GetOrCreate(t: Table, step: StepId): (Table, ChanId) {
    if step in t.channels then (t, t.channels[step])
    else (Table(t.channels[step := |t.heap|], t.heap + [Channel(step, None)]), |t.heap|)
  }

  /** A non-blocking send: a full channel silently drops the value. */
  function TrySend(t: Table, ch: ChanId, status: Status): Table
    requires ch < |t.heap|
  {
    if t.heap[ch].buffer.None?
    then t.(heap := t.heap[ch := t.heap[ch].(buffer := Some(status))])
    else t
  }

  function Drain(t: Table, ch: ChanId): Table
    requires ch < |t.heap|
  {
    t.(heap := t.heap[ch := t.heap[ch].(buffer := None)])
  }

  function Forget(t: Table, step: StepId): Table {
    t.(channels := t.channels - {step})
  }

  /** What the step's channel holds, if there is one. */
  function Buffered(t: Table, step: StepId): Option<Status> {
    if step in t.channels && t.channels[step] < |t.heap| then t.heap[t.channels[step]].buffer else None
  }

  class CallbackStatusStore {
    var channels: map<StepId, ChanId>
    var heap: seq<Channel>

    ghost function Contents(): Table
      reads this
    {
      Table(channels, heap)
    }

    ghost predicate Valid()
      reads this
    {
      WellFormed(Contents())
    }

    constructor ()
      ensures Valid() && Contents() == EMPTY_TABLE
    {
      channels, heap := map[], [];
    }

    method GetOrCreateChannel(step: StepId) returns (ch: ChanId)
      requires Valid()
      modifies this
      ensures Valid() && (Contents(), ch) == GetOrCreate(old(Contents()), step)
      ensures ch < |heap| && heap[ch].owner == step
    {
      if step in channels {
        ch := channels[step];
      } else {
        ch := |heap|;
        heap := heap + [Channel(step, None)];
        channels := channels[step := ch];
      }
    }

    method RemoveChannel(step: StepId)
      requires Valid()
      modifies this
      ensures Valid() && Contents() == Forget(old(Contents()), step)
    {
      channels := channels - {step};
    }

    method SendOrDrop(ch: ChanId, status: Status)
      requires Valid() && ch < |heap|
      modifies this`heap
      ensures Valid() && Contents() == TrySend(old(Contents()), ch, status)
    {
      if heap[ch].buffer.None? {
        heap := heap[ch := heap[ch].(buffer := Some(status))];
      }
    }

    method ReceiveFrom(ch: ChanId) returns (status: Status)
      requires Valid() && ch < |heap| && heap[ch].buffer.Some?
      modifies this`heap
      ensures Valid() && Some(status) == old(heap[ch].buffer)
      ensures Contents() == Drain(old(Contents()), ch)
    {
      status := heap[ch].buffer.value;
      heap := heap[ch := heap[ch].(buffer := None)];
    }

    /** One SetStatus call that nothing interrupts: the first value wins. */
    method SetStatus(step: StepId, status: Status)
      requires Valid()
      modifies this
      ensures Valid() && step in channels
      ensures forall other :: other != step ==>
        (other in channels <==> other in old(channels)) &&
        (other in channels ==>
          channels[other] == old(channels)[other] && heap[channels[other]] == old(heap)[channels[other]])
      ensures
        if step in old(channels) && old(heap)[old(channels)[step]].buffer.Some?
        then heap[channels[step]].buffer == old(heap)[old(channels)[step]].buffer
        else heap[channels[step]].buffer == Some(status)
    {
      var ch := GetOrCreateChannel(step);
      SendOrDrop(ch, status);
    }

    /**
     One WaitForStatus call that nothing interrupts once its select has an arm to take: it
     reports only what was buffered for this very step, waits in vain only for its context
     or timer, and leaves no channel of the step behind.
     */
    method WaitForStatus(step: StepId, cancelled: bool, expired: bool) returns (r: WaitResult)
      requires Valid() && (cancelled || expired || Buffered(Contents(), step).Some?)
      modifies this
      ensures Valid() && step !in channels
      ensures r.Reported? ==> Buffered(old(Contents()), step) == Some(r.status)
      ensures (r.Cancelled? ==> cancelled) && (r.TimedOut? ==> expired)
      ensures forall other :: other != step ==>
        && (other in channels <==> other in old(channels))
        && (other in channels ==> Buffered(Contents(), other) == Buffered(old(Contents()), other))
    {
      var ch := GetOrCreateChannel(step);
      var take: bool := *;
      if heap[ch].buffer.Some? && (take || (!cancelled && !expired)) {
        var status := ReceiveFrom(ch);
        r := Reported(status);
      } else if cancelled {
        r := Cancelled;
      } else {
        r := TimedOut;
      }
      RemoveChannel(step);
    }
  }

  // ----- Interleavings -----

  datatype WaitResult = Reported(status: Status) | Cancelled | TimedOut

  /** One SetStatus call in flight. */
  datatype Setter =
    | Arrived(step: StepId, status: Status)
    | Located(step: StepId, status: Status, ch: ChanId)
    | Finished

  /** The WaitForStatus call of one step. */
  datatype Waiter = Idle | Waiting(ch: ChanId) | Leaving(result: WaitResult) | Returned(result: WaitResult)

  /**
   `called` and `stored` are histories: the arguments of every SetStatus call per
   step, and the values that actually entered a channel of that step, in order.
   */
  datatype State = State(
    table: Table,
    setters: seq<Setter>,
    waiters: map<StepId, Waiter>,
    called: map<StepId, seq<Status>>,
    stored: map<StepId, seq<Status>>)

  const INIT := State(EMPTY_TABLE, [], map[], map[], map[])

  function WaiterOf(s: State, step: StepId): Waiter {
    if step in s.waiters then s.waiters[step] else Idle
  }

  function History(h: map<StepId, seq<Status>>, step: StepId): seq<Status> {
    if step in h then h[step] else []
  }

  datatype Action =
    | SetStatus(step: StepId, status: Status)   // a handler enters SetStatus
    | Locate(i: nat)                            // its getOrCreateChannel
    | Send(i: nat)                              // its non-blocking send
    | BeginWait(step: StepId)                   // WaitForStatus' getOrCreateChannel
    | Receive(step: StepId)                     // select: the channel arm
    | Cancel(step: StepId)                      // select: ctx.Done
    | Expire(step: StepId)                      // select: the timer
    | Depart(step: StepId)                      // removeChannel and return

  predicate Enabled(s: State, a: Action) {
    match a
    case SetStatus(_, _) => true
    case Locate(i) => i < |s.setters| && s.setters[i].Arrived?
    case Send(i) => i < |s.setters| && s.setters[i].Located? && s.setters[i].ch < |s.table.heap|
    case BeginWait(step) => WaiterOf(s, step).Idle?
    case Receive(step) =>
      var w := WaiterOf(s, step);
      w.Waiting? && w.ch < |s.table.heap| && s.table.heap[w.ch].buffer.Some?
    case Cancel(step) => WaiterOf(s, step).Waiting?
    case Expire(step) => WaiterOf(s, step).Waiting?
    case Depart(step) => WaiterOf(s, step).Leaving?
  }

  /** The effect of one atomic region; an action that is not enabled changes nothing. */
  function Next(s: State, a: Action): State {
    if !Enabled(s, a) then s else
    match a
    case SetStatus(step, status) =>
      s.(setters := s.setters + [Arrived(step, status)],
         called := s.called[step := History(s.called, step) + [status]])
    case Locate(i) =>
      var x := s.setters[i];
      var (table, ch) := GetOrCreate(s.table, x.step);
      s.(table := table, setters := s.setters[i := Located(x.step, x.status, ch)])
    case Send(i) =>
      var x := s.setters[i];
      s.(table := TrySend(s.table, x.ch, x.status),
         setters := s.setters[i := Finished],
         stored := if s.table.heap[x.ch].buffer.None?
                   then s.stored[x.step := History(s.stored, x.step) + [x.status]]
                   else s.stored)
    case BeginWait(step) =>
      var (table, ch) := GetOrCreate(s.table, step);
      s.(table := table, waiters := s.waiters[step := Waiting(ch)])
    case Receive(step) =>
      var ch := WaiterOf(s, step).ch;
      s.(table := Drain(s.table, ch),
         waiters := s.waiters[step := Leaving(Reported(s.table.heap[ch].buffer.value))])
    case Cancel(step) => s.(waiters := s.waiters[step := Leaving(Cancelled)])
    case Expire(step) => s.(waiters := s.waiters[step := Leaving(TimedOut)])
    case Depart(step) =>
      s.(table := Forget(s.table, step),
         waiters := s.waiters[step := Returned(WaiterOf(s, step).result)])
  }

  function Run(s: State, actions: seq<Action>): State
    decreases |actions|
  {
    if actions == [] then s else Run(Next(s, actions[0]), actions[1..])
  }

  // ----- Invariant -----

  ghost predicate SettersOk(s: State) {
    forall i :: 0 <= i < |s.setters| ==>
      var x := s.setters[i];
      && (x.Located? ==> x.ch < |s.table.heap| && s.table.heap[x.ch].owner == x.step)
      && (!x.Finished? ==> x.status in History(s.called, x.step))
  }

  /** Until its waiter leaves, a step has at most one channel, and that channel holds the first stored value. */
  ghost predicate Unread(s: State, step: StepId)
    requires WellFormed(s.table)
  {
    var stored := History(s.stored, step);
    && (forall k :: 0 <= k < |s.table.heap| && s.table.heap[k].owner == step ==>
          step in s.table.channels && s.table.channels[step] == k)
    && (WaiterOf(s, step).Waiting? ==>
          step in s.table.channels && s.table.channels[step] == WaiterOf(s, step).ch)
    && (stored == [] ==> step in s.table.channels ==> s.table.heap[s.table.channels[step]].buffer.None?)
    && (stored != [] ==>
          step in s.table.channels && s.table.heap[s.table.channels[step]].buffer == Some(stored[0]))
  }

  ghost predicate StepOk(s: State, step: StepId)
    requires WellFormed(s.table)
  {
    var w := WaiterOf(s, step);
    var stored := History(s.stored, step);
    && (forall v :: v in stored ==> v in History(s.called, step))
    && (w.Idle? || w.Waiting? ==> Unread(s, step))
    && ((w.Leaving? || w.Returned?) && w.result.Reported? ==> stored != [] && stored[0] == w.result.status)
  }

  ghost predicate Inv(s: State) {
    WellFormed(s.table) && SettersOk(s) && forall step :: StepOk(s, step)
  }

  lemma NextKeepsSetters(s: State, a: Action)
    requires Inv(s)
    ensures WellFormed(Next(s, a).table) && SettersOk(Next(s, a))
  {
  }

  lemma NextKeepsStep(s: State, a: Action, step: StepId)
    requires Inv(s) && WellFormed(Next(s, a).table)
    ensures StepOk(Next(s, a), step)
  {
    if Enabled(s, a) {
      match a
      case Send(i) => SendKeepsStep(s, i, step);
      case Locate(i) => LookupKeepsStep(s, a, step);
      case BeginWait(_) => LookupKeepsStep(s, a, step);
      case SetStatus(_, _) => assert StepOk(s, step);
      case _ => WaiterKeepsStep(s, a, step);
    } else {
      assert StepOk(s, step);
    }
  }

  lemma LookupKeepsStep(s: State, a: Action, step: StepId)
    requires Inv(s) && Enabled(s, a) && (a.Locate? || a.BeginWait?) && WellFormed(Next(s, a).table)
    ensures StepOk(Next(s, a), step)
  {
    assert StepOk(s, step);
  }

  lemma WaiterKeepsStep(s: State, a: Action, step: StepId)
    requires Inv(s) && Enabled(s, a) && (a.Receive? || a.Cancel? || a.Expire? || a.Depart?)
      && WellFormed(Next(s, a).table)
    ensures StepOk(Next(s, a), step)
  {
    assert StepOk(s, step) && StepOk(s, a.step);
  }

  lemma SendKeepsStep(s: State, i: nat, step: StepId)
    requires Inv(s) && Enabled(s, Send(i)) && WellFormed(Next(s, Send(i)).table)
    ensures StepOk(Next(s, Send(i)), step)
  {
    var x := s.setters[i];
    assert StepOk(s, step) && StepOk(s, x.step);
    assert x.status in History(s.called, x.step);
  }

  lemma NextKeepsInv(s: State, a: Action)
    requires Inv(s)
    ensures Inv(Next(s, a))
  {
    NextKeepsSetters(s, a);
    forall step ensures StepOk(Next(s, a), step) {
      NextKeepsStep(s, a, step);
    }
  }

  lemma {:induction false} RunKeepsInv(s: State, actions: seq<Action>)
    requires Inv(s)
    ensures Inv(Run(s, actions))
    decreases |actions|
  {
    if actions != [] {
      NextKeepsInv(s, actions[0]);
      RunKeepsInv(Next(s, actions[0]), actions[1..]);
    }
  }

  /**
   Whatever the interleaving, a wait that yields a status yields the first one stored for its
   own step, and that one was passed to SetStatus for that step.
   */
  lemma WaitYieldsFirstStored(actions: seq<Action>, step: StepId)
    ensures
      var s := Run(INIT, actions);
      var w := WaiterOf(s, step);
      w.Returned? && w.result.Reported? ==>
        && History(s.stored, step) != []
        && w.result.status == History(s.stored, step)[0]
        && w.result.status in History(s.called, step)
  {
    RunKeepsInv(INIT, actions);
    assert StepOk(Run(INIT, actions), step);
  }

  // ----- An early status is not lost -----

  predicate LeavesWait(a: Action, step: StepId) {
    a == Receive(step) || a == Cancel(step) || a == Expire(step)
  }

  /** While a step is unread and not being read, its first stored value and a pending wait stay put. */
  lemma {:induction false} UnreadStays(s: State, actions: seq<Action>, step: StepId)
    requires Inv(s) && History(s.stored, step) != []
    requires WaiterOf(s, step).Idle? || WaiterOf(s, step).Waiting?
    requires forall i :: 0 <= i < |actions| ==> !LeavesWait(actions[i], step)
    ensures
      var t := Run(s, actions);
      && Inv(t) && History(t.stored, step) != [] && History(t.stored, step)[0] == History(s.stored, step)[0]
      && (WaiterOf(t, step).Idle? || WaiterOf(t, step).Waiting?)
      && (WaiterOf(s, step).Waiting? ==> WaiterOf(t, step).Waiting?)
    decreases |actions|
  {
    if actions != [] {
      NextKeepsInv(s, actions[0]);
      assert !LeavesWait(actions[0], step);
      UnreadStays(Next(s, actions[0]), actions[1..], step);
    }
  }

  /**
   A status stored before the wait begins is never lost: from any reachable state
   in which it is stored and unread, whatever happens up to and after the moment
   the wait begins, as long as the wait stays in its select the channel arm is ready
   and yields exactly that status.
   */
  lemma EarlyStatusIsDelivered(s: State, middle: seq<Action>, after: seq<Action>, step: StepId, waiting: State)
    requires Inv(s) && WaiterOf(s, step).Idle? && History(s.stored, step) != []
    requires forall i :: 0 <= i < |middle| ==> !LeavesWait(middle[i], step)
    requires forall i :: 0 <= i < |after| ==> !LeavesWait(after[i], step)
    requires waiting == Run(Next(Run(s, middle), BeginWait(step)), after)
    ensures Enabled(waiting, Receive(step))
    ensures WaiterOf(Next(waiting, Receive(step)), step) == Leaving(Reported(History(s.stored, step)[0]))
  {
    UnreadStays(s, middle, step);
    var m := Run(s, middle);
    var b := Next(m, BeginWait(step));
    BeginWaitStarts(m, step);
    UnreadStays(b, after, step);
    assert StepOk(waiting, step);
  }

  lemma BeginWaitStarts(m: State, step: StepId)
    requires Inv(m) && (WaiterOf(m, step).Idle? || WaiterOf(m, step).Waiting?)
    ensures
      var b := Next(m, BeginWait(step));
      Inv(b) && WaiterOf(b, step).Waiting? && b.stored == m.stored
  {
    NextKeepsInv(m, BeginWait(step));
  }

  // ----- Calls in flight -----

  /** How many SetStatus calls for a step have been entered and not finished. */
  function InFlight(setters: seq<Setter>, step: StepId): nat {
    if setters == [] then 0
    else InFlight(setters[..|setters| - 1], step) + FlightOf(setters[|setters| - 1], step)
  }

  function FlightOf(x: Setter, step: StepId): nat {
    if !x.Finished? && x.step == step then 1 else 0
  }

  lemma {:induction false} OneSetterMoves(setters: seq<Setter>, i: nat, x: Setter, step: StepId)
    requires i < |setters|
    ensures InFlight(setters[i := x], step) + FlightOf(setters[i], step)
         == InFlight(setters, step) + FlightOf(x, step)
    decreases |setters|
  {
    var n := |setters| - 1;
    if i == n {
      assert setters[i := x][..n] == setters[..n];
    } else {
      OneSetterMoves(setters[..n], i, x, step);
      assert setters[i := x][..n] == setters[..n][i := x];
    }
  }

  /** A store for the step uses up a call in flight, and only entering SetStatus for the step adds one. */
  lemma StoringFinishesACall(s: State, a: Action, step: StepId)
    ensures
      var t := Next(s, a);
      && History(s.stored, step) <= History(t.stored, step)
      && |History(t.stored, step)| + InFlight(t.setters, step)
         <= |History(s.stored, step)| + InFlight(s.setters, step)
            + if a.SetStatus? && a.step == step then 1 else 0
  {
    var t := Next(s, a);
    if a.SetStatus? {
      assert t.setters[..|s.setters|] == s.setters;
    } else if (a.Locate? || a.Send?) && Enabled(s, a) {
      OneSetterMoves(s.setters, a.i, t.setters[a.i], step);
    }
  }
}
