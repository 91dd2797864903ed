/** Task spawning and shutdown: `TaskManager::spawn`, `TaskManager::stop`, `Task::stop` and
    `TaskContext::wait_for_stop`.

    A context holds a clone of the hold token from the moment its spawner cloned it until the
    worker drops the context.  `stop` drops the apex token under the lock, then broadcasts the
    stop signal, then waits until no token is left.  Calls are numbered; the context and the
    task handle of spawn call `i` carry its number.  Every step runs between two await points. */
module TaskManager {
  import opened Sequences
  import opened Wrappers

  datatype Spawner =
    | Waiting                 // for the lock
    | Cloned                  // has the lock and a clone of the token
    | Subscribed(cursor: nat) // and a receiver on the stop broadcast
    | Started                 // has started a task and released the lock
    | Refused                 // found no apex token: no task

  datatype Stopper = Called | Taken | Signalled | Receiving | Returned

  /** A task context.  `cursor` is its position in the stop broadcast, which keeps one message. */
  datatype Context = Context(
    live: bool,
    cursor: nat,
    stopQueued: bool,         // a message waits on the task's own stop channel
    handleDropped: bool,      // the sending end of that channel is gone
    notified: bool)           // history: `wait_for_stop` has returned at least once

  /** A `Task::stop` call in progress; `&mut self` allows one at a time. */
  datatype TaskCall = NoCall | Sending | AwaitingHold

  datatype Handle = Handle(hold: bool, call: TaskCall, returned: bool)

  datatype State = State(
    apex: bool,
    lock: Option<nat>,        // the spawner that holds the `hold_tx` lock
    stops: nat,               // stop signals broadcast
    receiver: Option<nat>,    // the stopper that holds the `hold_rx` lock
    spawners: map<nat, Spawner>,
    stoppers: map<nat, Stopper>,
    contexts: map<nat, Context>,
    handles: map<nat, Handle>)

  datatype Event =
    | Spawn(id: nat) | Lock(id: nat) | Subscribe(id: nat) | Start(id: nat)
    | Stop(id: nat) | Take(id: nat) | Signal(id: nat) | LockReceiver(id: nat) | Return(id: nat)
    | Notice(id: nat, own: bool)    // `wait_for_stop` returns, on the own channel or the broadcast
    | Drop(id: nat)                 // the worker drops its context
    | TaskStop(id: nat) | TaskSend(id: nat) | TaskReturn(id: nat)
    | DropHandle(id: nat)

  const INITIAL := State(true, None, 0, None, map[], map[], map[], map[])

  predicate Midway(s: State, i: nat) {
    i in s.spawners && (s.spawners[i].Cloned? || s.spawners[i].Subscribed?)
  }

  predicate Live(s: State, i: nat) {
    i in s.contexts && s.contexts[i].live
  }

  /** No hold token is left. */
  ghost predicate Drained(s: State) {
    !s.apex && (forall i <- s.spawners :: !Midway(s, i)) && (forall i <- s.contexts :: !Live(s, i))
  }

  /** A receiver that has fallen behind a broadcast channel of capacity one reports the lag once
      and moves to the last message; either way `wait_for_stop` returns. */
  function CursorAfter(cursor: nat, stops: nat): nat {
    if cursor + 1 < stops then stops - 1 else cursor + 1
  }

  ghost function Step(s: State, e: Event): State {
    match e
    case Spawn(i) => if i in s.spawners then s else s.(spawners := s.spawners[i := Waiting])
    case Lock(i) =>
      if i in s.spawners && s.spawners[i].Waiting? && s.lock.None?
      then if s.apex then s.(spawners := s.spawners[i := Cloned], lock := Some(i))
           else s.(spawners := s.spawners[i := Refused], handles := s.handles[i := Handle(false, NoCall, false)])
      else s
    case Subscribe(i) =>
      if i in s.spawners && s.spawners[i].Cloned? then s.(spawners := s.spawners[i := Subscribed(s.stops)]) else s
    case Start(i) =>
      if i in s.spawners && s.spawners[i].Subscribed?
      then s.(spawners := s.spawners[i := Started], lock := None,
              contexts := s.contexts[i := Context(true, s.spawners[i].cursor, false, false, false)],
              handles := s.handles[i := Handle(true, NoCall, false)])
      else s
    case Stop(j) => if j in s.stoppers then s else s.(stoppers := s.stoppers[j := Called])
    case Take(j) =>
      if j in s.stoppers && s.stoppers[j].Called? && s.lock.None?
      then s.(apex := false, stoppers := s.stoppers[j := Taken]) else s
    case Signal(j) =>
      if j in s.stoppers && s.stoppers[j].Taken?
      then s.(stops := s.stops + 1, stoppers := s.stoppers[j := Signalled]) else s
    case LockReceiver(j) =>
      if j in s.stoppers && s.stoppers[j].Signalled? && s.receiver.None?
      then s.(receiver := Some(j), stoppers := s.stoppers[j := Receiving]) else s
    case Return(j) =>
      if j in s.stoppers && s.stoppers[j].Receiving? && Drained(s)
      then s.(receiver := None, stoppers := s.stoppers[j := Returned]) else s
    case Notice(i, own) =>
      if !Live(s, i) then s
      else
        var c := s.contexts[i];
        if own && c.stopQueued then s.(contexts := s.contexts[i := c.(stopQueued := false, notified := true)])
        else if own && c.handleDropped then s.(contexts := s.contexts[i := c.(notified := true)])
        else if !own && c.cursor < s.stops
        then s.(contexts := s.contexts[i := c.(cursor := CursorAfter(c.cursor, s.stops), notified := true)])
        else s
    case Drop(i) => if Live(s, i) then s.(contexts := s.contexts[i := s.contexts[i].(live := false)]) else s
    case TaskStop(i) =>
      if i in s.handles && s.handles[i].call.NoCall?
      then s.(handles := s.handles[i := s.handles[i].(call := Sending)]) else s
    case TaskSend(i) =>
      // The stop channel holds one message: sending waits while it is full, and fails at once
      // when the context is gone or there never was one.
      if i in s.handles && s.handles[i].call.Sending? && !(Live(s, i) && s.contexts[i].stopQueued)
      then s.(handles := s.handles[i := s.handles[i].(call := AwaitingHold)],
              contexts := if Live(s, i) then s.contexts[i := s.contexts[i].(stopQueued := true)] else s.contexts)
      else s
    case TaskReturn(i) =>
      if i in s.handles && s.handles[i].call.AwaitingHold? && (s.handles[i].hold ==> !Live(s, i))
      then s.(handles := s.handles[i := Handle(false, NoCall, true)]) else s
    case DropHandle(i) =>
      if Live(s, i) then s.(contexts := s.contexts[i := s.contexts[i].(handleDropped := true)]) else s
  }

  ghost function Run(s: State, events: seq<Event>): State {
    if events == [] then s
    else Step(Run(s, events[..|events| - 1]), events[|events| - 1])
  }

  // ----- what every step keeps

  /** The lock is held exactly from cloning the token to starting the task, and only while the
      apex token is still there. */
  ghost predicate LockInv(s: State) {
    && (forall i <- s.spawners :: Midway(s, i) ==> s.lock == Some(i) && s.apex)
    && (s.lock.Some? ==> Midway(s, s.lock.value))
  }

  /** Nothing is broadcast before the apex token is gone. */
  ghost predicate OrderInv(s: State) {
    && (s.apex ==> s.stops == 0 && forall j <- s.stoppers :: s.stoppers[j].Called?)
    && (forall j <- s.stoppers :: (s.stoppers[j].Signalled? || s.stoppers[j].Receiving? || s.stoppers[j].Returned?) ==> s.stops > 0)
    && (s.receiver.Some? ==> s.receiver.value in s.stoppers && s.stoppers[s.receiver.value].Receiving?)
    && (forall j <- s.stoppers :: s.stoppers[j].Receiving? ==> s.receiver == Some(j))
  }

  /** A broadcast signal is pending for every context that has not consumed one. */
  ghost predicate SignalInv(s: State) {
    && (forall i <- s.spawners :: s.spawners[i].Subscribed? ==> s.spawners[i].cursor == 0)
    && (forall i <- s.contexts :: CursorInv(s, s.contexts[i]))
  }

  predicate CursorInv(s: State, c: Context) {
    c.cursor <= s.stops && (c.cursor == s.stops && s.stops > 0 ==> c.notified)
  }

  ghost predicate ReturnInv(s: State) {
    forall j <- s.stoppers :: s.stoppers[j].Returned? ==> Drained(s)
  }

  /** Contexts and handles come from spawn calls that are over. */
  ghost predicate OriginInv(s: State) {
    && (forall i <- s.contexts :: i in s.spawners && s.spawners[i].Started?)
    && (forall i <- s.handles :: i in s.spawners && (s.spawners[i].Started? || s.spawners[i].Refused?))
  }

  /** A task handle without its hold belongs to a context that is gone, or never was. */
  ghost predicate HandleInv(s: State) {
    && (forall i <- s.handles :: !s.handles[i].hold ==> !Live(s, i))
    && (forall i <- s.handles :: s.handles[i].returned ==> !s.handles[i].hold)
  }

  /** A `Task::stop` call that waits for the hold of a live context has reached it: its message is
      queued, or some signal has been noticed. */
  predicate MessageOk(s: State, i: nat) {
    i in s.handles && s.handles[i].call.AwaitingHold? && Live(s, i) ==> s.contexts[i].stopQueued || s.contexts[i].notified
  }

  ghost predicate MessageInv(s: State) {
    forall i <- s.handles :: MessageOk(s, i)
  }

  ghost predicate Inv(s: State) {
    LockInv(s) && OrderInv(s) && SignalInv(s) && ReturnInv(s) && OriginInv(s) && HandleInv(s) && MessageInv(s)
  }

  predicate SpawnerEvent(e: Event) {
    e.Spawn? || e.Lock? || e.Subscribe? || e.Start?
  }

  predicate StopperEvent(e: Event) {
    e.Stop? || e.Take? || e.Signal? || e.LockReceiver? || e.Return?
  }

  predicate ContextEvent(e: Event) {
    e.Start? || e.Notice? || e.Drop? || e.TaskSend? || e.DropHandle?
  }

  predicate HandleEvent(e: Event) {
    e.Lock? || e.Start? || e.TaskStop? || e.TaskSend? || e.TaskReturn?
  }

  /** Each part of the state is moved by its own events only. */
  lemma {:induction false} Frame(s: State, e: Event)
    ensures var t := Step(s, e);
            && (!SpawnerEvent(e) ==> t.spawners == s.spawners && t.lock == s.lock)
            && (!StopperEvent(e) ==> t.stoppers == s.stoppers && t.stops == s.stops && t.receiver == s.receiver)
            && (!e.Take? ==> t.apex == s.apex) && (!e.Signal? ==> t.stops == s.stops)
            && (!ContextEvent(e) ==> t.contexts == s.contexts)
            && (!HandleEvent(e) ==> t.handles == s.handles)
  {
    SpawnerFrame(s, e);
    StopperFrame(s, e);
    TaskFrame(s, e);
    hide Step;
  }

  lemma {:induction false} SpawnerFrame(s: State, e: Event)
    ensures !SpawnerEvent(e) ==> Step(s, e).spawners == s.spawners && Step(s, e).lock == s.lock
    ensures !e.Take? ==> Step(s, e).apex == s.apex
  {
    hide Drained, CursorAfter;
  }

  lemma {:induction false} StopperFrame(s: State, e: Event)
    ensures !StopperEvent(e) ==> Step(s, e).stoppers == s.stoppers && Step(s, e).receiver == s.receiver
    ensures !e.Signal? ==> Step(s, e).stops == s.stops
  {
    hide Drained, CursorAfter;
  }

  lemma {:induction false} TaskFrame(s: State, e: Event)
    ensures !ContextEvent(e) ==> Step(s, e).contexts == s.contexts
    ensures !HandleEvent(e) ==> Step(s, e).handles == s.handles
  {
    hide Drained, CursorAfter;
  }

  lemma {:induction false} LockKept(s: State, e: Event)
    requires LockInv(s)
    ensures LockInv(Step(s, e))
  {
    if SpawnerEvent(e) || e.Take? {
      hide Drained;
    } else {
      Frame(s, e);
      hide Step;
    }
  }

  lemma {:induction false} OrderKept(s: State, e: Event)
    requires LockInv(s) && OrderInv(s)
    ensures OrderInv(Step(s, e))
  {
    if StopperEvent(e) {
      hide Drained, LockInv;
    } else {
      Frame(s, e);
      hide Step;
    }
  }

  lemma {:induction false} SignalKept(s: State, e: Event)
    requires Inv(s)
    ensures SignalInv(Step(s, e))
  {
    var next := Step(s, e);
    forall i | i in next.contexts ensures CursorInv(next, next.contexts[i]) {
      CursorKept(s, e, i);
    }
    assert forall i <- next.spawners :: next.spawners[i].Subscribed? ==> next.spawners[i].cursor == 0 by {
      SubscribedEarly(s, e);
    }
  }

  lemma {:induction false} CursorKept(s: State, e: Event, i: nat)
    requires i in s.contexts ==> CursorInv(s, s.contexts[i])
    requires i in s.spawners && s.spawners[i].Subscribed? ==> s.spawners[i].cursor == 0 == s.stops
    requires i in Step(s, e).contexts
    ensures CursorInv(Step(s, e), Step(s, e).contexts[i])
  {
    Frame(s, e);
    if e.Notice? {
      hide Drained;
    } else if ContextEvent(e) {
      hide Drained, CursorAfter;
    } else {
      hide Step;
    }
  }

  /** Nobody subscribes after a broadcast: the lock and the apex token see to that. */
  lemma {:induction false} SubscribedEarly(s: State, e: Event)
    requires LockInv(s) && OrderInv(s) && SignalInv(s)
    ensures forall i <- Step(s, e).spawners :: Step(s, e).spawners[i].Subscribed? ==> Step(s, e).spawners[i].cursor == 0
  {
    if SpawnerEvent(e) {
      hide Drained;
    } else {
      Frame(s, e);
      hide Step;
    }
  }

  /** Once no token is left there never is one again. */
  lemma {:induction false} DrainedKept(s: State, e: Event)
    requires Drained(s)
    ensures Drained(Step(s, e))
  {
  }

  lemma {:induction false} ReturnKept(s: State, e: Event)
    requires ReturnInv(s)
    ensures ReturnInv(Step(s, e))
  {
    if Drained(s) {
      DrainedKept(s, e);
      hide Step, Drained;
    } else {
      NobodyReturns(s, e);
      hide Step, Drained;
    }
  }

  /** While a token is left no `stop` call returns. */
  lemma {:induction false} NobodyReturns(s: State, e: Event)
    requires !Drained(s) && (forall j <- s.stoppers :: !s.stoppers[j].Returned?)
    ensures forall j <- Step(s, e).stoppers :: !Step(s, e).stoppers[j].Returned?
  {
    hide Drained;
  }

  lemma {:induction false} OriginKept(s: State, e: Event)
    requires LockInv(s) && OriginInv(s)
    ensures OriginInv(Step(s, e))
  {
    if SpawnerEvent(e) {
      hide Drained;
    } else {
      Frame(s, e);
      SameKeys(s, e);
      hide Step;
    }
  }

  lemma {:induction false} SameKeys(s: State, e: Event)
    requires !SpawnerEvent(e)
    ensures Step(s, e).contexts.Keys == s.contexts.Keys && Step(s, e).handles.Keys == s.handles.Keys
  {
    TaskFrame(s, e);
    hide Drained, CursorAfter;
  }

  predicate HandleOk(s: State, i: nat) {
    i in s.handles ==> (!s.handles[i].hold ==> !Live(s, i)) && (s.handles[i].returned ==> !s.handles[i].hold)
  }

  lemma {:induction false} HandleKept(s: State, e: Event)
    requires OriginInv(s) && HandleInv(s)
    ensures HandleInv(Step(s, e))
  {
    hide Step;
    var next := Step(s, e);
    forall i ensures HandleOk(next, i) {
      assert HandleOk(s, i);
      HandleStep(s, e, i);
    }
    hide OriginInv;
    assert forall i <- next.handles :: HandleOk(next, i);
  }

  lemma {:induction false} HandleStep(s: State, e: Event, i: nat)
    requires OriginInv(s) && HandleOk(s, i)
    ensures HandleOk(Step(s, e), i)
  {
    if HandleEvent(e) {
      hide Drained;
    } else {
      Frame(s, e);
      assert i in s.handles ==> i in s.spawners && !s.spawners[i].Subscribed?;
      if i in s.handles {
        ContextStep(s, e, i);
      }
      hide Step;
    }
  }

  lemma {:induction false} MessageStep(s: State, e: Event, i: nat)
    requires OriginInv(s) && MessageOk(s, i)
    ensures MessageOk(Step(s, e), i)
  {
    TaskFrame(s, e);
    assert i in s.handles ==> i in s.spawners && !s.spawners[i].Subscribed?;
    hide Drained, CursorAfter;
  }

  lemma {:induction false} MessageKept(s: State, e: Event)
    requires OriginInv(s) && MessageInv(s)
    ensures MessageInv(Step(s, e))
  {
    hide Step;
    var next := Step(s, e);
    forall i ensures MessageOk(next, i) {
      assert MessageOk(s, i);
      MessageStep(s, e, i);
    }
    hide OriginInv;
  }

  lemma {:induction false} StepKeeps(s: State, e: Event)
    requires Inv(s)
    ensures Inv(Step(s, e))
  {
    LockKept(s, e);
    OrderKept(s, e);
    SignalKept(s, e);
    ReturnKept(s, e);
    OriginKept(s, e);
    HandleKept(s, e);
    MessageKept(s, e);
  }

  lemma {:induction false} Reachable(events: seq<Event>)
    ensures Inv(Run(INITIAL, events))
  {
    if events == [] {
    } else {
      Reachable(events[..|events| - 1]);
      StepKeeps(Run(INITIAL, events[..|events| - 1]), events[|events| - 1]);
    }
  }

  // ----- safe shutdown

  predicate HasReturned(s: State, j: nat) {
    j in s.stoppers && s.stoppers[j].Returned?
  }

  lemma {:induction false} DrainedForever(s: State, more: seq<Event>)
    requires Drained(s)
    ensures Drained(Run(s, more))
  {
    if more == [] {
    } else {
      DrainedForever(s, more[..|more| - 1]);
      DrainedKept(Run(s, more[..|more| - 1]), more[|more| - 1]);
    }
  }

  /** Safe shutdown.  When `stop` has returned, every context ever handed out has been dropped,
      and that stays so whatever happens next: no task can run any more. */
  lemma {:induction false} SafeShutdown(events: seq<Event>, j: nat, more: seq<Event>)
    requires HasReturned(Run(INITIAL, events), j)
    ensures var now := Run(Run(INITIAL, events), more);
            forall i <- now.contexts :: !now.contexts[i].live
  {
    Reachable(events);
    DrainedForever(Run(INITIAL, events), more);
    var now := Run(Run(INITIAL, events), more);
    forall i | i in now.contexts ensures !now.contexts[i].live {
      assert !Live(now, i);
    }
  }

  /** Spawn call `i` has no task: it was refused, is still waiting, or was not made yet. */
  predicate NoTask(s: State, i: nat) {
    i !in s.contexts && (i in s.spawners ==> s.spawners[i].Waiting? || s.spawners[i].Refused?)
  }

  lemma {:induction false} NoTaskKept(s: State, e: Event, i: nat)
    requires !s.apex && NoTask(s, i)
    ensures !Step(s, e).apex && NoTask(Step(s, e), i)
  {
    hide Drained;
  }

  /** Without the apex token nobody gets past the lock: no spawn that is still waiting then, or
      called later, ever starts a task. */
  lemma {:induction false} NoLateStart(s: State, more: seq<Event>, i: nat)
    requires !s.apex && NoTask(s, i)
    ensures !Run(s, more).apex && NoTask(Run(s, more), i)
  {
    if more == [] {
    } else {
      NoLateStart(s, more[..|more| - 1], i);
      NoTaskKept(Run(s, more[..|more| - 1]), more[|more| - 1], i);
    }
  }

  /** `Task::stop` that has returned left the task's context dropped, for ever. */
  lemma {:induction false} TaskStopped(events: seq<Event>, i: nat, more: seq<Event>)
    requires var s := Run(INITIAL, events); i in s.handles && s.handles[i].returned
    ensures !Live(Run(Run(INITIAL, events), more), i)
  {
    Reachable(events);
    GoneForever(Run(INITIAL, events), more, i);
  }

  lemma {:induction false} GoneForever(s: State, more: seq<Event>, i: nat)
    requires Inv(s) && i in s.handles && !Live(s, i)
    ensures var now := Run(s, more); Inv(now) && i in now.handles && !Live(now, i)
  {
    if more == [] {
    } else {
      var before := Run(s, more[..|more| - 1]);
      GoneForever(s, more[..|more| - 1], i);
      StepKeeps(before, more[|more| - 1]);
      GoneStep(before, more[|more| - 1], i);
    }
  }

  lemma {:induction false} GoneStep(s: State, e: Event, i: nat)
    requires OriginInv(s) && i in s.handles && !Live(s, i)
    ensures i in Step(s, e).handles && !Live(Step(s, e), i)
  {
    OnlyForward(s, e);
    ContextStep(s, e, i);
  }

  // ----- no lost stop signal, and termination

  /** No lost stop signal.  After the broadcast every live context has a signal pending (one more
      `wait_for_stop` returns at once) or has consumed one. */
  lemma {:induction false} NoLostSignal(events: seq<Event>, i: nat)
    requires var s := Run(INITIAL, events); s.stops > 0 && Live(s, i)
    ensures var s := Run(INITIAL, events);
            s.contexts[i].notified || Step(s, Notice(i, false)).contexts[i].notified
  {
    Reachable(events);
  }

  ghost function LiveSet(s: State): set<nat> {
    set i | i in s.contexts && s.contexts[i].live
  }

  ghost function UnawareSet(s: State): set<nat> {
    set i | i in s.contexts && s.contexts[i].live && !s.contexts[i].notified
  }

  /** What workers still have to do: notice the signal, and drop their context. */
  ghost function Remaining(s: State): nat {
    |LiveSet(s)| + |UnawareSet(s)|
  }

  lemma {:induction false} SubsetSize(a: set<nat>, b: set<nat>)
    requires a <= b
    ensures |a| <= |b| && (a != b ==> |a| < |b|)
  {
    assert b == a + (b - a);
    assert |b| == |a| + |b - a|;
    assert b - a == {} ==> b <= a;
  }

  /** Once the apex token is gone, no step adds work. */
  lemma {:induction false} RemainingNeverGrows(s: State, e: Event)
    requires Inv(s) && !s.apex
    ensures !Step(s, e).apex && Remaining(Step(s, e)) <= Remaining(s)
  {
    NothingAdded(s, e);
    SubsetSize(LiveSet(Step(s, e)), LiveSet(s));
    SubsetSize(UnawareSet(Step(s, e)), UnawareSet(s));
  }

  lemma {:induction false} NothingAdded(s: State, e: Event)
    requires LockInv(s) && !s.apex
    ensures !Step(s, e).apex && LiveSet(Step(s, e)) <= LiveSet(s) && UnawareSet(Step(s, e)) <= UnawareSet(s)
  {
    OnlyForward(s, e);
    assert forall i <- s.spawners :: !Midway(s, i);
    hide Step, LockInv;
    forall i ensures i in LiveSet(Step(s, e)) ==> i in LiveSet(s) {
      ContextStep(s, e, i);
    }
    forall i ensures i in UnawareSet(Step(s, e)) ==> i in UnawareSet(s) {
      ContextStep(s, e, i);
    }
  }

  /** A context never comes back to life nor forgets a signal, and only its spawner makes one. */
  lemma {:induction false} ContextStep(s: State, e: Event, i: nat)
    requires i in s.spawners ==> !s.spawners[i].Subscribed?
    ensures var t := Step(s, e);
            i in t.contexts ==>
              i in s.contexts && (t.contexts[i].live ==> s.contexts[i].live) && (s.contexts[i].notified ==> t.contexts[i].notified)
  {
    if ContextEvent(e) {
      hide Drained, CursorAfter;
    } else {
      TaskFrame(s, e);
      hide Step;
    }
  }

  /** The apex token never comes back, and handles stay. */
  lemma {:induction false} OnlyForward(s: State, e: Event)
    ensures Step(s, e).apex ==> s.apex
    ensures forall i <- s.handles :: i in Step(s, e).handles
  {
    hide Drained;
  }

  /** A live worker's own next step: it notices the signal, and then drops its context. */
  ghost function NextStep(s: State, i: nat): Event
    requires i in s.contexts
  {
    if s.contexts[i].notified then Drop(i) else Notice(i, false)
  }

  lemma {:induction false} NextStepHelps(s: State, i: nat)
    requires SignalInv(s) && s.stops > 0 && Live(s, i)
    ensures var next := Step(s, NextStep(s, i));
            if s.contexts[i].notified then i !in LiveSet(next) else i in LiveSet(next) && i !in UnawareSet(next)
  {
    hide Drained;
    assert CursorInv(s, s.contexts[i]);
  }

  /** And after the broadcast every live worker's own next step leaves less work, whichever worker
      the scheduler picks: noticing the signal, or dropping the context after that.  So `stop`
      cannot hang once every worker leaves on the signal: `Remaining` is a termination measure. */
  lemma {:induction false} EveryWorkerHelps(s: State, i: nat)
    requires Inv(s) && !s.apex && s.stops > 0 && Live(s, i)
    ensures Remaining(Step(s, NextStep(s, i))) < Remaining(s)
  {
    var next := Step(s, NextStep(s, i));
    NothingAdded(s, NextStep(s, i));
    NextStepHelps(s, i);
    SubsetSize(LiveSet(next), LiveSet(s));
    SubsetSize(UnawareSet(next), UnawareSet(s));
    assert i in LiveSet(s) && (!s.contexts[i].notified ==> i in UnawareSet(s));
  }

  // ----- what `wait_for_stop` returns on

  /** How many more times the broadcast arm of a context's `wait_for_stop` returns at once: a receiver
      that is behind by more than the one message kept is first told so. */
  function Pending(s: State, i: nat): nat
    requires i in s.contexts
  {
    var behind := s.stops - s.contexts[i].cursor;
    if behind <= 0 then 0 else if behind == 1 then 1 else 2
  }

  /** The phases of a `Task::stop` call come in order, one call at a time on a handle: it begins where
      there is none, queues its message only where there is room, and returns only from its wait. */
  lemma {:induction false} CallPhases(s: State, e: Event, i: nat)
    requires OriginInv(s) && i in s.handles
    ensures var t := Step(s, e);
            i in t.handles
            && var (was, now) := (s.handles[i], t.handles[i]);
               && (now.call != was.call ==>
                     || (e == TaskStop(i) && was.call.NoCall? && now.call.Sending?)
                     || (e == TaskSend(i) && was.call.Sending? && now.call.AwaitingHold? && !(Live(s, i) && s.contexts[i].stopQueued))
                     || (e == TaskReturn(i) && was.call.AwaitingHold? && now.call.NoCall? && now.returned))
               && (now.returned && !was.returned ==> e == TaskReturn(i) && was.call.AwaitingHold?)
               && (e == TaskSend(i) && !was.call.Sending? ==> t == s)
  {
    hide Drained;
  }

  /** `wait_for_stop` returns on its own arm if and only if a message is queued, which it takes, or the
      sending end is gone; on the broadcast arm if and only if a signal is pending, and it takes one. */
  lemma {:induction false} WaitReturnsIff(s: State, i: nat, own: bool)
    requires Live(s, i) && !s.contexts[i].notified && s.contexts[i].cursor <= s.stops
    ensures var c, d := s.contexts[i], Step(s, Notice(i, own)).contexts[i];
            && (d.notified <==> if own then c.stopQueued || c.handleDropped else Pending(s, i) > 0)
            && d.live && d.handleDropped == c.handleDropped
            && (own ==> !d.stopQueued && d.cursor == c.cursor)
            && (!own ==> d.stopQueued == c.stopQueued && Pending(Step(s, Notice(i, own)), i) == if Pending(s, i) > 0 then Pending(s, i) - 1 else 0)
  {
    hide Drained;
  }

  /** Dropping a task's handle stops the task: its next `wait_for_stop` returns. */
  lemma {:induction false} DroppedHandleStops(s: State, i: nat)
    requires Live(s, i)
    ensures var t := Step(s, DropHandle(i));
            Live(t, i) && Live(Step(t, Notice(i, true)), i) && Step(t, Notice(i, true)).contexts[i].notified
  {
    hide Drained;
  }

  // ----- `Task::stop` completes

  /** One more step, by a rule that keeps what matters. */
  lemma {:induction false} Extend(s: State, events: seq<Event>, e: Event)
    requires Willing(s, events) && Inv(Run(s, events))
    requires e.Drop? ==> e.id in Run(s, events).contexts && Run(s, events).contexts[e.id].notified
    ensures Willing(s, events + [e]) && Run(s, events + [e]) == Step(Run(s, events), e) && Inv(Run(s, events + [e]))
  {
    hide Step, Inv;
    WillingSnoc(s, events, e);
    RunSnoc(s, events, e);
    StepKeeps(Run(s, events), e);
  }

  /** The call gets its message through: a full channel is emptied by the worker's own wait. */
  lemma {:induction false} MessageSent(s: State, i: nat) returns (events: seq<Event>)
    requires Inv(s) && i in s.handles && s.handles[i].call.Sending?
    ensures Willing(s, events) && forall e <- events :: e == Notice(i, true) || e == TaskSend(i)
    ensures var now := Run(s, events); Inv(now) && i in now.handles && now.handles[i].call.AwaitingHold?
  {
    events := [];
    if Live(s, i) && s.contexts[i].stopQueued {
      Extend(s, [], Notice(i, true));
      events := [] + [Notice(i, true)];
      ChannelEmptied(s, i);
    }
    var t := Run(s, events);
    hide Inv;
    Extend(s, events, TaskSend(i));
    SendGoesThrough(t, i);
    events := events + [TaskSend(i)];
  }

  lemma {:induction false} ChannelEmptied(s: State, i: nat)
    requires i in s.handles && Live(s, i) && s.contexts[i].stopQueued
    ensures var t := Step(s, Notice(i, true)); t.handles == s.handles && Live(t, i) && !t.contexts[i].stopQueued
  {
    hide Drained, CursorAfter;
  }

  lemma {:induction false} SendGoesThrough(s: State, i: nat)
    requires i in s.handles && s.handles[i].call.Sending? && !(Live(s, i) && s.contexts[i].stopQueued)
    ensures var t := Step(s, TaskSend(i)); i in t.handles && t.handles[i].call.AwaitingHold?
  {
    hide Drained, CursorAfter;
  }

  /** The worker leaves: it notices the message, unless it has noticed a signal, and drops its context. */
  lemma {:induction false} WorkerLeaves(s: State, i: nat) returns (events: seq<Event>)
    requires Inv(s) && i in s.handles && s.handles[i].call.AwaitingHold? && Live(s, i)
    ensures Willing(s, events) && forall e <- events :: e == Notice(i, true) || e == Drop(i)
    ensures var now := Run(s, events); Inv(now) && now.handles == s.handles && !Live(now, i)
  {
    assert MessageOk(s, i);
    events := [];
    if !s.contexts[i].notified {
      Extend(s, [], Notice(i, true));
      events := [] + [Notice(i, true)];
    }
    OwnMessageNoticed(s, i);
    hide Inv;
    Extend(s, events, Drop(i));
    DropEnds(Run(s, events), i);
    events := events + [Drop(i)];
  }

  lemma {:induction false} OwnMessageNoticed(s: State, i: nat)
    requires Live(s, i) && (s.contexts[i].stopQueued || s.contexts[i].notified)
    ensures Run(s, []) == s
    ensures !s.contexts[i].notified ==>
              var t := Run(s, [] + [Notice(i, true)]); t.handles == s.handles && Live(t, i) && t.contexts[i].notified
  {
    RunSnoc(s, [], Notice(i, true));
    hide Drained, CursorAfter;
  }

  lemma {:induction false} DropEnds(s: State, i: nat)
    requires Live(s, i)
    ensures Step(s, Drop(i)).handles == s.handles && !Live(Step(s, Drop(i)), i)
  {
    hide Drained, CursorAfter;
  }

  lemma {:induction false} HoldReleased(s: State, i: nat)
    requires i in s.handles && s.handles[i].call.AwaitingHold? && !Live(s, i)
    ensures var t := Step(s, TaskReturn(i)); i in t.handles && t.handles[i].returned
  {
    hide Drained, CursorAfter;
  }

  /** `Task::stop` completes without any help from a broadcast: from any reachable state with a call in
      progress on a handle, the call's own steps and those of a worker that leaves once it has
      noticed the message bring it to its return. */
  lemma {:induction false} TaskStopCompletes(events: seq<Event>, i: nat) returns (more: seq<Event>)
    requires var s := Run(INITIAL, events); i in s.handles && !s.handles[i].call.NoCall?
    ensures forall e <- more :: e == Notice(i, true) || e == TaskSend(i) || e == Drop(i) || e == TaskReturn(i)
    ensures var s := Run(INITIAL, events);
            && Willing(s, more)
            && var now := Run(s, more); i in now.handles && now.handles[i].returned
  {
    Reachable(events);
    more := TaskStopFrom(Run(INITIAL, events), i);
  }

  lemma {:induction false} TaskStopFrom(s: State, i: nat) returns (more: seq<Event>)
    requires Inv(s) && i in s.handles && !s.handles[i].call.NoCall?
    ensures forall e <- more :: e == Notice(i, true) || e == TaskSend(i) || e == Drop(i) || e == TaskReturn(i)
    ensures Willing(s, more)
    ensures var now := Run(s, more); i in now.handles && now.handles[i].returned
  {
    hide Inv, Step;
    more := [];
    assert Run(s, []) == s && Willing(s, []);
    if s.handles[i].call.Sending? {
      more := MessageSent(s, i);
    }
    var t := Run(s, more);
    if Live(t, i) {
      var leaving := WorkerLeaves(t, i);
      RunConcat(s, more, leaving);
      WillingConcat(s, more, leaving);
      more := more + leaving;
    }
    Extend(s, more, TaskReturn(i));
    HoldReleased(Run(s, more), i);
    more := more + [TaskReturn(i)];
  }

  // ----- any fair schedule

  /** How many turns a worker has had: steps of its own, taken while its context was live. */
  ghost function Turns(s: State, events: seq<Event>, i: nat): nat {
    if events == [] then 0
    else
      var before, e := events[..|events| - 1], events[|events| - 1];
      Turns(s, before, i) + if Live(Run(s, before), i) && e == NextStep(Run(s, before), i) then 1 else 0
  }

  /** How far a worker has come: 0 unaware of the signal, 1 aware of it, 2 gone. */
  ghost function Phase(s: State, i: nat): nat {
    if !Live(s, i) then 2 else if s.contexts[i].notified then 1 else 0
  }

  /** The signal is out and stays out. */
  ghost predicate Stopping(s: State) {
    Inv(s) && !s.apex && s.stops > 0
  }

  lemma {:induction false} StoppingKept(s: State, e: Event)
    requires Stopping(s)
    ensures Stopping(Step(s, e))
  {
    StepKeeps(s, e);
    OnlyForward(s, e);
    StopperFrame(s, e);
    assert e.Signal? ==> Step(s, e).stops >= s.stops by {
      hide Drained, Inv;
    }
    hide Step, Inv;
  }

  /** No step takes a worker back, and its own turn takes it on. */
  lemma {:induction false} PhaseStep(s: State, e: Event, i: nat)
    requires Stopping(s)
    ensures Phase(Step(s, e), i) >= Phase(s, i)
    ensures Live(s, i) && e == NextStep(s, i) ==> Phase(Step(s, e), i) > Phase(s, i)
  {
    assert i in s.spawners ==> !s.spawners[i].Subscribed? by {
      assert i in s.spawners ==> !Midway(s, i);
    }
    ContextStep(s, e, i);
    if Live(s, i) && e == NextStep(s, i) {
      NextStepHelps(s, i);
    }
    hide Step, Inv, NextStep;
  }

  lemma {:induction false} PhaseRun(s: State, events: seq<Event>, i: nat)
    requires Stopping(s)
    ensures Stopping(Run(s, events))
    ensures Phase(Run(s, events), i) >= 2 || Phase(Run(s, events), i) >= Phase(s, i) + Turns(s, events, i)
  {
    if events == [] {
    } else {
      var front, e := events[..|events| - 1], events[|events| - 1];
      PhaseRun(s, front, i);
      StoppingKept(Run(s, front), e);
      PhaseStep(Run(s, front), e, i);
      hide Step, Stopping, NextStep;
    }
  }

  /** Shutdown under any fair schedule.  Once the signal is out, take any run, with whatever other
      steps in whatever order, in which every worker that is still there at its end has had two
      turns: one for its `wait_for_stop`, which returns because no signal is lost, and one to drop
      its context.  Then none is there, no token is left, and a `stop` call that waits for that
      returns with its next step. */
  lemma {:induction false} FairShutdown(s: State, events: seq<Event>, j: nat)
    requires Inv(s) && !s.apex && s.stops > 0
    requires forall i <- LiveSet(Run(s, events)) :: Turns(s, events, i) >= 2
    ensures var now := Run(s, events);
            && Drained(now)
            && (j in now.stoppers && now.stoppers[j].Receiving? ==> HasReturned(Step(now, Return(j)), j))
  {
    var now := Run(s, events);
    PhaseRun(s, events, 0);
    forall i | i in LiveSet(now) ensures false {
      PhaseRun(s, events, i);
    }
    NobodyLeft(now);
  }

  lemma {:induction false} NobodyLeft(s: State)
    requires LockInv(s) && !s.apex && LiveSet(s) == {}
    ensures Drained(s)
  {
    assert forall i <- s.contexts :: Live(s, i) ==> i in LiveSet(s);
  }

  // ----- stop completes

  lemma {:induction false} RunSnoc(s: State, events: seq<Event>, e: Event)
    ensures Run(s, events + [e]) == Step(Run(s, events), e)
  {
    assert (events + [e])[..|events|] == events;
  }

  lemma {:induction false} RunConcat(s: State, a: seq<Event>, b: seq<Event>)
    ensures Run(s, a + b) == Run(Run(s, a), b)
    decreases |b|
  {
    hide Step;
    if b == [] {
      assert a + b == a;
    } else {
      RunConcat(s, a, b[..|b| - 1]);
      ConcatLast(a, b);
      RunSnoc(s, a + b[..|b| - 1], b[|b| - 1]);
    }
  }

  /** Workers drop their contexts only after they have noticed a stop signal. */
  ghost predicate Willing(s: State, events: seq<Event>) {
    events == [] ||
      var before, e := events[..|events| - 1], events[|events| - 1];
      && Willing(s, before)
      && (e.Drop? ==> e.id in Run(s, before).contexts && Run(s, before).contexts[e.id].notified)
  }

  lemma {:induction false} WillingSnoc(s: State, events: seq<Event>, e: Event)
    ensures Willing(s, events + [e]) <==>
              Willing(s, events) && (e.Drop? ==> e.id in Run(s, events).contexts && Run(s, events).contexts[e.id].notified)
  {
    hide Step;
    FrontOf(events, e);
  }

  lemma {:induction false} WillingConcat(s: State, a: seq<Event>, b: seq<Event>)
    requires Willing(s, a) && Willing(Run(s, a), b)
    ensures Willing(s, a + b)
    decreases |b|
  {
    if b == [] {
      assert a + b == a;
    } else {
      var front, last := b[..|b| - 1], b[|b| - 1];
      SplitLast(b);
      WillingSnoc(Run(s, a), front, last);
      hide Willing, Run, Step;
      WillingConcat(s, a, front);
      RunConcat(s, a, front);
      WillingSnoc(s, a + front, last);
      ConcatLast(a, b);
    }
  }

  lemma {:induction false} WillingNoDrops(s: State, events: seq<Event>)
    requires forall e <- events :: !e.Drop?
    ensures Willing(s, events)
  {
    if events == [] {
    } else {
      WillingNoDrops(s, events[..|events| - 1]);
    }
  }

  lemma {:induction false} OneStep(s: State, e: Event)
    ensures Run(s, [e]) == Step(s, e)
    ensures Willing(s, [e]) <==> (e.Drop? ==> e.id in s.contexts && s.contexts[e.id].notified)
  {
    assert [e][..0] == [];
  }

  /** The lock is never held for long: its holder has at most two steps to go. */
  lemma {:induction false} Unlock(s: State) returns (events: seq<Event>)
    requires Inv(s)
    ensures forall e <- events :: !e.Drop?
    ensures var now := Run(s, events); Inv(now) && now.lock.None? && now.stoppers == s.stoppers
  {
    events := [];
    if s.lock.Some? {
      var i := s.lock.value;
      assert Midway(s, i);
      HolderFinishes(s, i);
      hide Step, Midway;
      StepKeeps(s, Subscribe(i));
      StepKeeps(Step(s, Subscribe(i)), Start(i));
      hide Inv;
      TwoSteps(s, Subscribe(i), Start(i));
      events := [Subscribe(i), Start(i)];
    }
  }

  lemma {:induction false} HolderFinishes(s: State, i: nat)
    requires Midway(s, i)
    ensures var t := Step(Step(s, Subscribe(i)), Start(i)); t.lock.None? && t.stoppers == s.stoppers
  {
    hide Drained;
  }

  lemma {:induction false} TwoSteps(s: State, a: Event, b: Event)
    ensures Run(s, [a, b]) == Step(Step(s, a), b)
  {
    hide Step;
    RunSnoc(s, [], a);
    RunSnoc(s, [a], b);
    assert [] + [a] == [a] && [a] + [b] == [a, b];
  }

  /** The stopper has broadcast. */
  predicate HasSignalled(s: State, j: nat) {
    j in s.stoppers && (s.stoppers[j].Signalled? || s.stoppers[j].Receiving? || s.stoppers[j].Returned?)
  }

  lemma {:induction false} Broadcast(s: State, j: nat) returns (events: seq<Event>)
    requires Inv(s) && j in s.stoppers && s.lock.None?
    ensures forall e <- events :: !e.Drop?
    ensures var now := Run(s, events); Inv(now) && HasSignalled(now, j)
  {
    StopperSignals(s, j);
    hide Step, HasSignalled;
    StepKeeps(s, Take(j));
    StepKeeps(Step(s, Take(j)), Signal(j));
    hide Inv;
    TwoSteps(s, Take(j), Signal(j));
    events := [Take(j), Signal(j)];
  }

  lemma {:induction false} StopperSignals(s: State, j: nat)
    requires j in s.stoppers && s.lock.None?
    ensures HasSignalled(Step(Step(s, Take(j)), Signal(j)), j)
  {
    hide Drained;
  }

  lemma {:induction false} WorkersLeave(s: State, j: nat) returns (events: seq<Event>)
    requires Inv(s) && HasSignalled(s, j)
    ensures Willing(s, events)
    ensures var now := Run(s, events); Inv(now) && HasSignalled(now, j) && Drained(now)
    decreases Remaining(s)
  {
    assert !s.apex && s.stops > 0;
    if LiveSet(s) == {} {
      assert forall i <- s.contexts :: Live(s, i) ==> i in LiveSet(s);
      events := [];
    } else {
      var i :| i in LiveSet(s);
      var e := NextStep(s, i);
      EveryWorkerHelps(s, i);
      StepKeeps(s, e);
      var rest := WorkersLeave(Step(s, e), j);
      OneStep(s, e);
      RunConcat(s, [e], rest);
      WillingConcat(s, [e], rest);
      events := [e] + rest;
    }
  }

  lemma {:induction false} LastSteps(s: State, j: nat) returns (events: seq<Event>)
    requires Inv(s) && HasSignalled(s, j) && Drained(s)
    ensures forall e <- events :: !e.Drop?
    ensures HasReturned(Run(s, events), j)
  {
    var k := if s.receiver.Some? then s.receiver.value else j;
    DrainedKept(s, Return(k));
    DrainedKept(Step(s, Return(k)), LockReceiver(j));
    StopperReturns(s, j, k);
    hide Step, HasReturned;
    TwoSteps(s, Return(k), LockReceiver(j));
    events := [Return(k), LockReceiver(j)] + [Return(j)];
    RunSnoc(s, [Return(k), LockReceiver(j)], Return(j));
  }

  /** The receiver of a stopper that is about to return is free for the next one. */
  lemma {:induction false} StopperReturns(s: State, j: nat, k: nat)
    requires OrderInv(s) && HasSignalled(s, j) && k == if s.receiver.Some? then s.receiver.value else j
    requires Drained(s) && Drained(Step(s, Return(k))) && Drained(Step(Step(s, Return(k)), LockReceiver(j)))
    ensures HasReturned(Step(Step(Step(s, Return(k)), LockReceiver(j)), Return(j)), j)
  {
    hide Drained;
  }

  /** From any reachable state any `stop` call in progress can still return: the steps of the lock
      holder, of stoppers, and of workers that get to their `wait_for_stop` and leave after it
      suffice.  A worker that never gets there (a connection inside a stranded `play`) keeps its
      context and `stop` waiting. */
  lemma {:induction false} StopCompletes(events: seq<Event>, j: nat) returns (more: seq<Event>)
    requires j in Run(INITIAL, events).stoppers
    ensures Willing(Run(INITIAL, events), more)
    ensures HasReturned(Run(Run(INITIAL, events), more), j)
  {
    Reachable(events);
    var s := Run(INITIAL, events);
    var a := Unlock(s);
    var b := Broadcast(Run(s, a), j);
    RunConcat(s, a, b);
    WillingNoDrops(s, a + b);
    var c := WorkersLeave(Run(s, a + b), j);
    RunConcat(s, a + b, c);
    WillingConcat(s, a + b, c);
    var d := LastSteps(Run(s, a + b + c), j);
    RunConcat(s, a + b + c, d);
    WillingNoDrops(Run(s, a + b + c), d);
    WillingConcat(s, a + b + c, d);
    more := a + b + c + d;
  }

  // ----- the manager as the source writes it

  /** `TaskManager`, the contexts and handles it gave out, and the calls made on it.  What the
      source does between two await points is one method here. */
  class Manager {
    var holdTx: bool
    var stopTx: nat
    var receiver: Option<nat>
    var spawners: map<nat, Spawner>
    var stoppers: map<nat, Stopper>
    var contexts: map<nat, Context>
    var handles: map<nat, Handle>

    ghost function View(): State
      reads this
    {
      State(holdTx, None, stopTx, receiver, spawners, stoppers, contexts, handles)
    }

    constructor ()
      ensures View() == INITIAL
    {
      holdTx, stopTx, receiver := true, 0, None;
      spawners, stoppers, contexts, handles := map[], map[], map[], map[];
    }

    /** A whole `spawn` call that finds the lock free. */
    static ghost function SpawnCall(s: State, id: nat): State {
      Step(Step(Step(Step(s, Spawn(id)), Lock(id)), Subscribe(id)), Start(id))
    }

    static lemma {:induction false} SpawnCallKeeps(s: State, id: nat)
      ensures Inv(s) ==> Inv(SpawnCall(s, id))
    {
      if Inv(s) {
        StepKeeps(s, Spawn(id));
        StepKeeps(Step(s, Spawn(id)), Lock(id));
        StepKeeps(Step(Step(s, Spawn(id)), Lock(id)), Subscribe(id));
        StepKeeps(Step(Step(Step(s, Spawn(id)), Lock(id)), Subscribe(id)), Start(id));
      }
    }

    static lemma {:induction false} SpawnCallSteps(s: State, id: nat)
      requires id !in s.spawners && s.lock.None?
      ensures SpawnCall(s, id)
              == if s.apex
                 then s.(spawners := s.spawners[id := Started],
                         contexts := s.contexts[id := Context(true, s.stops, false, false, false)],
                         handles := s.handles[id := Handle(true, NoCall, false)])
                 else s.(spawners := s.spawners[id := Refused], handles := s.handles[id := Handle(false, NoCall, false)])
    {
      var asked := Step(s, Spawn(id));
      var locked := Step(asked, Lock(id));
      if s.apex {
        assert locked == s.(spawners := s.spawners[id := Cloned], lock := Some(id));
        var subscribed := Step(locked, Subscribe(id));
        assert subscribed == s.(spawners := s.spawners[id := Subscribed(s.stops)], lock := Some(id));
      }
    }

    /** `spawn`, from having the lock to giving it back: the guard lives to the end of the
        `if let`, so cloning, subscribing and starting are one critical section. */
    method SpawnTask(id: nat) returns (started: bool)
      requires id !in spawners
      modifies this
      ensures View() == SpawnCall(old(View()), id)
      ensures Inv(old(View())) ==> Inv(View())
      ensures started == old(holdTx)
      ensures if started then Live(View(), id) else contexts == old(contexts)
      ensures handles[id].hold == started && handles[id].call.NoCall? && !handles[id].returned
    {
      started := holdTx;
      SpawnCallSteps(View(), id);
      SpawnCallKeeps(View(), id);
      if started {
        var cursor := stopTx;
        contexts := contexts[id := Context(true, cursor, false, false, false)];
        handles := handles[id := Handle(true, NoCall, false)];
        spawners := spawners[id := Started];
      } else {
        handles := handles[id := Handle(false, NoCall, false)];
        spawners := spawners[id := Refused];
      }
    }

    /** A `stop` call, up to its wait, that finds the lock free. */
    static ghost function StopCall(s: State, j: nat): State {
      Step(Step(Step(s, Stop(j)), Take(j)), Signal(j))
    }

    static lemma {:induction false} StopCallKeeps(s: State, j: nat)
      ensures Inv(s) ==> Inv(StopCall(s, j))
    {
      if Inv(s) {
        StepKeeps(s, Stop(j));
        StepKeeps(Step(s, Stop(j)), Take(j));
        StepKeeps(Step(Step(s, Stop(j)), Take(j)), Signal(j));
      }
    }

    static lemma {:induction false} StopCallSteps(s: State, j: nat)
      requires j !in s.stoppers && s.lock.None?
      ensures StopCall(s, j) == s.(apex := false, stops := s.stops + 1, stoppers := s.stoppers[j := Signalled])
    {
      var taken := Step(Step(s, Stop(j)), Take(j));
      assert taken == s.(apex := false, stoppers := s.stoppers[j := Taken]);
    }

    static lemma {:induction false} StepKeepsIf(s: State, e: Event)
      ensures Inv(s) ==> Inv(Step(s, e))
    {
      if Inv(s) {
        StepKeeps(s, e);
      }
    }

    /** `stop` up to its wait: drop the apex token, then broadcast. */
    method BeginStop(j: nat)
      requires j !in stoppers
      modifies this
      ensures View() == StopCall(old(View()), j)
      ensures Inv(old(View())) ==> Inv(View())
      ensures !holdTx && stopTx == old(stopTx) + 1 && contexts == old(contexts)
    {
      StopCallSteps(View(), j);
      StopCallKeeps(View(), j);
      holdTx := false;
      stopTx := stopTx + 1;
      stoppers := stoppers[j := Signalled];
    }

    /** `Task::stop` begins; it borrows the handle until it returns. */
    method BeginTaskStop(i: nat)
      requires i in handles && handles[i].call.NoCall?
      modifies this`handles
      ensures View() == Step(old(View()), TaskStop(i))
      ensures Inv(old(View())) ==> Inv(View())
      ensures handles == old(handles)[i := Handle(old(handles)[i].hold, Sending, old(handles)[i].returned)]
    {
      StepKeepsIf(View(), TaskStop(i));
      handles := handles[i := handles[i].(call := Sending)];
    }

    /** Sending its message: waits while the stop channel is full; without a live context the send
        fails, which is ignored. */
    method SendTaskStop(i: nat) returns (sent: bool)
      requires i in handles && handles[i].call.Sending?
      modifies this`handles, this`contexts
      ensures View() == Step(old(View()), TaskSend(i))
      ensures Inv(old(View())) ==> Inv(View())
      ensures sent == !(Live(old(View()), i) && old(contexts)[i].stopQueued)
      ensures sent ==> handles[i].call.AwaitingHold? && (Live(View(), i) ==> contexts[i].stopQueued)
      ensures !sent ==> View() == old(View())
    {
      StepKeepsIf(View(), TaskSend(i));
      var live := i in contexts && contexts[i].live;
      sent := !live || !contexts[i].stopQueued;
      if sent {
        handles := handles[i := handles[i].(call := AwaitingHold)];
        if live {
          contexts := contexts[i := contexts[i].(stopQueued := true)];
        }
      }
    }

    /** And its return: the hold was taken, and has been released. */
    method FinishTaskStop(i: nat)
      requires i in handles && handles[i].call.AwaitingHold?
      requires handles[i].hold ==> !Live(View(), i)
      modifies this`handles
      ensures View() == Step(old(View()), TaskReturn(i))
      ensures Inv(old(View())) ==> Inv(View())
      ensures handles == old(handles)[i := Handle(false, NoCall, true)]
    {
      StepKeepsIf(View(), TaskReturn(i));
      handles := handles[i := Handle(false, NoCall, true)];
    }

    /** `wait_for_stop` on the task's own channel: it returns on a queued message, or when the handle is
        gone. */
    method NoticeOwn(i: nat)
      requires i in contexts && contexts[i].live && (contexts[i].stopQueued || contexts[i].handleDropped)
      modifies this`contexts
      ensures View() == Step(old(View()), Event.Notice(i, true))
      ensures Inv(old(View())) ==> Inv(View())
      ensures contexts[i].notified && contexts[i].live && !contexts[i].stopQueued
    {
      StepKeepsIf(View(), Event.Notice(i, true));
      contexts := contexts[i := contexts[i].(stopQueued := false, notified := true)];
    }

    /** `wait_for_stop` on the broadcast. */
    method Notice(i: nat)
      requires i in contexts && contexts[i].live && contexts[i].cursor < stopTx
      modifies this`contexts
      ensures View() == Step(old(View()), Event.Notice(i, false))
      ensures Inv(old(View())) ==> Inv(View())
      ensures contexts[i].notified
    {
      StepKeepsIf(View(), Event.Notice(i, false));
      var c := contexts[i];
      var cursor := if c.cursor + 1 < stopTx then stopTx - 1 else c.cursor + 1;
      contexts := contexts[i := c.(cursor := cursor, notified := true)];
    }
  }
}
