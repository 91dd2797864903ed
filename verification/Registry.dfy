/** The registries of sessions and of connections.

    Both are maps from an id to a worker, updated by requests and by the workers' own "stopped"
    messages, and both start the worker before they insert its entry: the message can overtake
    the insertion.  They differ in where ids come from (drawn at random, or counted) and in what
    inserting under an id already present does (rejects the newcomer, or overwrites).

    Workers are numbered by the order of this model, apart from their ids. */
module Registry {
  import opened Sequences

  type Id = nat

  datatype Policy = KeepFirst | Overwrite

  datatype Worker =
    | NeverRan     // the task manager was stopping: no task was started, no message will come
    | Running
    | Exited       // out of its loop, context dropped, message not sent yet
    | Notified     // its message waits in the manager's inbox
    | Processed

  datatype Registration = Starting | Registered | Rejected

  datatype Instance = Instance(id: Id, worker: Worker, registration: Registration)

  datatype State = State(
    entries: map<Id, nat>,
    instances: map<nat, Instance>,
    inbox: seq<nat>,           // stopped messages, by sender
    managing: bool,            // the manager's own worker still runs
    drained: bool,             // the manager's `stop` has emptied the map
    late: set<nat>)            // history: inserted after their message was processed

  datatype Event =
    | Start(worker: nat, id: Id, spawned: bool)
    | Insert(worker: nat)
    | Exit(worker: nat)
    | Notify(worker: nat)
    | Process                  // the manager handles the next stopped message
    | EndManager
    | Drain

  const INITIAL := State(map[], map[], [], true, false, {})

  function SetWorker(s: State, k: nat, w: Worker): State
    requires k in s.instances
  {
    s.(instances := s.instances[k := s.instances[k].(worker := w)])
  }

  predicate Is(s: State, k: nat, w: Worker) {
    k in s.instances && s.instances[k].worker == w
  }

  predicate IsStarting(s: State, k: nat) {
    k in s.instances && s.instances[k].registration.Starting?
  }

  function InsertEntry(policy: Policy, s: State, k: nat): State
    requires k in s.instances
  {
    var inst := s.instances[k];
    if policy.KeepFirst? && inst.id in s.entries
    then s.(instances := s.instances[k := inst.(registration := Rejected)])
    else s.(instances := s.instances[k := inst.(registration := Registered)],
            entries := s.entries[inst.id := k],
            late := if inst.worker.Processed? then s.late + {k} else s.late)
  }

  function ProcessNext(s: State): State
    requires s.inbox != [] && s.inbox[0] in s.instances
  {
    var k := s.inbox[0];
    SetWorker(s, k, Processed).(inbox := s.inbox[1..], entries := s.entries - {s.instances[k].id})
  }

  function Step(policy: Policy, s: State, e: Event): State {
    match e
    case Start(k, id, spawned) =>
      if k in s.instances then s
      else s.(instances := s.instances[k := Instance(id, if spawned then Running else NeverRan, Starting)])
    case Insert(k) => if IsStarting(s, k) then InsertEntry(policy, s, k) else s
    case Exit(k) => if Is(s, k, Running) then SetWorker(s, k, Exited) else s
    case Notify(k) => if Is(s, k, Exited) then SetWorker(s, k, Notified).(inbox := s.inbox + [k]) else s
    case Process => if s.managing && s.inbox != [] && s.inbox[0] in s.instances then ProcessNext(s) else s
    case EndManager => s.(managing := false)
    case Drain => if s.managing then s else s.(drained := true, entries := map[])
  }

  function Run(policy: Policy, s: State, events: seq<Event>): State {
    if events == [] then s
    else Step(policy, Run(policy, s, events[..|events| - 1]), events[|events| - 1])
  }

  // ----- fresh ids

  /** A worker whose stopped message is still to be processed. */
  predicate Unretired(s: State, k: nat) {
    k in s.instances && (s.instances[k].worker.Running? || s.instances[k].worker.Exited? || s.instances[k].worker.Notified?)
  }

  /** The id is fit to be drawn: no worker that may still send a message has it, and where
      inserting overwrites, none ever had it. */
  ghost predicate Free(policy: Policy, s: State, id: Id) {
    forall k <- s.instances :: s.instances[k].id == id ==> policy.KeepFirst? && !Unretired(s, k)
  }

  /** Every id was free when it was drawn. */
  ghost predicate FreshRun(policy: Policy, events: seq<Event>) {
    events == [] ||
      var before, e := events[..|events| - 1], events[|events| - 1];
      FreshRun(policy, before) && (e.Start? ==> Free(policy, Run(policy, INITIAL, before), e.id))
  }

  // ----- what every step keeps

  ghost predicate UniqueInv(policy: Policy, s: State) {
    forall k <- s.instances, l <- s.instances ::
      s.instances[k].id == s.instances[l].id && (policy.Overwrite? || (Unretired(s, k) && Unretired(s, l))) ==> k == l
  }

  ghost predicate InboxInv(s: State) {
    && (forall k <- s.inbox :: Is(s, k, Notified))
    && (forall k <- s.instances :: Is(s, k, Notified) ==> k in s.inbox)
    && (forall i, j :: 0 <= i < j < |s.inbox| ==> s.inbox[i] != s.inbox[j])
  }

  ghost predicate EntryInv(s: State) {
    forall id <- s.entries :: EntryOk(s, id)
  }

  predicate EntryOk(s: State, id: Id)
    requires id in s.entries
  {
    && s.entries[id] in s.instances
    && s.instances[s.entries[id]].id == id && s.instances[s.entries[id]].registration.Registered?
  }

  /** A registered worker whose message is not processed yet has its entry. */
  predicate Found(s: State, k: nat) {
    k in s.instances && s.instances[k].id in s.entries && s.entries[s.instances[k].id] == k
  }

  /** No other worker was given this id. */
  ghost predicate OnlyHolder(s: State, k: nat)
    requires k in s.instances
  {
    forall l <- s.instances :: s.instances[l].id == s.instances[k].id ==> l == k
  }

  /** No message removes this worker's entry now: its own is still to be processed, or will never
      come (it never ran, or its message was processed before the insertion) and nobody else's
      can be taken for it. */
  ghost predicate Stays(s: State, k: nat)
    requires k in s.instances
  {
    Unretired(s, k) || ((s.instances[k].worker.NeverRan? || k in s.late) && OnlyHolder(s, k))
  }

  ghost predicate SoundInv(s: State) {
    !s.drained ==> forall k <- s.instances :: s.instances[k].registration.Registered? && Stays(s, k) ==> Found(s, k)
  }

  /** An entry outlives its worker's message only if it was inserted after it. */
  ghost predicate StaleInv(s: State) {
    && (forall k <- s.instances :: Found(s, k) && Is(s, k, Processed) ==> k in s.late)
    && (forall k <- s.late :: Is(s, k, Processed) && s.instances[k].registration.Registered?)
  }

  /** A worker was rejected for an entry that only its own message can remove. */
  ghost predicate RejectedInv(s: State) {
    !s.drained ==> forall k <- s.instances :: s.instances[k].registration.Rejected? && Unretired(s, k) ==> s.instances[k].id in s.entries
  }

  ghost predicate Inv(policy: Policy, s: State) {
    UniqueInv(policy, s) && InboxInv(s) && EntryInv(s) && SoundInv(s) && StaleInv(s) && RejectedInv(s)
  }

  /** Ids never change, and a worker that is done stays done. */
  lemma {:induction false} OnlyRetire(policy: Policy, s: State, e: Event, k: nat)
    requires k in s.instances
    ensures var t := Step(policy, s, e);
            k in t.instances && t.instances[k].id == s.instances[k].id && (Unretired(t, k) ==> Unretired(s, k))
  {
  }

  lemma {:induction false} OnlyStarted(policy: Policy, s: State, e: Event, k: nat)
    requires k in Step(policy, s, e).instances && k !in s.instances
    ensures e.Start? && e.worker == k && Step(policy, s, e).instances[k].id == e.id
  {
  }

  lemma {:induction false} UniqueKept(policy: Policy, s: State, e: Event)
    requires UniqueInv(policy, s) && (e.Start? ==> Free(policy, s, e.id))
    ensures UniqueInv(policy, Step(policy, s, e))
  {
    var t := Step(policy, s, e);
    forall k, l | k in t.instances && l in t.instances && t.instances[k].id == t.instances[l].id
                  && (policy.Overwrite? || (Unretired(t, k) && Unretired(t, l)))
      ensures k == l
    {
      if k in s.instances { OnlyRetire(policy, s, e, k); } else { OnlyStarted(policy, s, e, k); }
      if l in s.instances { OnlyRetire(policy, s, e, l); } else { OnlyStarted(policy, s, e, l); }
    }
  }

  lemma {:induction false} ProcessInbox(s: State)
    requires InboxInv(s) && s.inbox != [] && s.inbox[0] in s.instances
    ensures InboxInv(ProcessNext(s))
  {
    var t := ProcessNext(s);
    assert s.inbox == [s.inbox[0]] + t.inbox;
    forall k | k in t.inbox ensures Is(t, k, Notified) {
      assert k in s.inbox;
    }
  }

  lemma {:induction false} NotifyInbox(s: State, k: nat)
    requires InboxInv(s) && Is(s, k, Exited)
    ensures InboxInv(SetWorker(s, k, Notified).(inbox := s.inbox + [k]))
  {
    assert k !in s.inbox;
  }

  lemma {:induction false} InboxUntouched(policy: Policy, s: State, e: Event, k: nat)
    requires !e.Process? && !e.Notify?
    ensures Step(policy, s, e).inbox == s.inbox && (Is(Step(policy, s, e), k, Notified) <==> Is(s, k, Notified))
  {
  }

  lemma {:induction false} InboxKept(policy: Policy, s: State, e: Event)
    requires InboxInv(s)
    ensures InboxInv(Step(policy, s, e))
  {
    if e.Process? && s.managing && s.inbox != [] && s.inbox[0] in s.instances {
      ProcessInbox(s);
    } else if e.Notify? && Is(s, e.worker, Exited) {
      NotifyInbox(s, e.worker);
    } else if !e.Process? && !e.Notify? {
      forall k ensures Is(Step(policy, s, e), k, Notified) <==> Is(s, k, Notified) {
        InboxUntouched(policy, s, e, k);
      }
      InboxUntouched(policy, s, e, 0);
    }
  }

  lemma {:induction false} EntryKept(policy: Policy, s: State, e: Event)
    requires EntryInv(s)
    ensures EntryInv(Step(policy, s, e))
  {
    forall id | id in Step(policy, s, e).entries ensures EntryOk(Step(policy, s, e), id) {
      assert id in s.entries ==> EntryOk(s, id);
      EntryStep(policy, s, e, id);
    }
  }

  lemma {:induction false} EntryStep(policy: Policy, s: State, e: Event, id: Id)
    requires (id in s.entries ==> EntryOk(s, id)) && id in Step(policy, s, e).entries
    ensures EntryOk(Step(policy, s, e), id)
  {
  }

  lemma {:induction false} SoundKept(policy: Policy, s: State, e: Event)
    requires Inv(policy, s)
    ensures SoundInv(Step(policy, s, e))
  {
    var t := Step(policy, s, e);
    if !t.drained {
      forall k | k in t.instances && t.instances[k].registration.Registered? && Stays(t, k) ensures Found(t, k) {
        if k in s.instances {
          SoundKeptFor(policy, s, e, k);
        } else {
          OnlyStarted(policy, s, e, k);
        }
      }
    }
  }

  /** A worker that stays in `t` stayed in `s`, if it was registered there. */
  lemma {:induction false} StayedBefore(policy: Policy, s: State, e: Event, k: nat)
    requires k in s.instances && s.instances[k].registration.Registered? && Stays(Step(policy, s, e), k)
    ensures Stays(s, k)
  {
    var t := Step(policy, s, e);
    OnlyRetire(policy, s, e, k);
    if !Unretired(t, k) {
      forall l | l in s.instances && s.instances[l].id == s.instances[k].id ensures l == k {
        OnlyRetire(policy, s, e, l);
      }
    }
  }

  lemma {:induction false} SoundKeptFor(policy: Policy, s: State, e: Event, k: nat)
    requires Inv(policy, s) && k in s.instances && !Step(policy, s, e).drained
    requires var t := Step(policy, s, e); t.instances[k].registration.Registered? && Stays(t, k)
    ensures Found(Step(policy, s, e), k)
  {
    if s.instances[k].registration.Registered? {
      StayedBefore(policy, s, e, k);
      assert Found(s, k);
      if e.Process? && s.inbox != [] && s.inbox[0] in s.instances {
        OthersProcessed(policy, s, k);
      } else if e.Insert? && IsStarting(s, e.worker) {
        OthersInserted(policy, s, e.worker, k);
      }
    }
  }

  /** Processing the message of one worker leaves the entry of another that stays. */
  lemma {:induction false} OthersProcessed(policy: Policy, s: State, k: nat)
    requires UniqueInv(policy, s) && InboxInv(s) && StaleInv(s) && s.inbox != [] && s.inbox[0] in s.instances
    requires Found(s, k) && Stays(s, k)
    ensures Stays(ProcessNext(s), k) ==> Found(ProcessNext(s), k)
  {
    var m := s.inbox[0];
    assert Is(s, m, Notified) && Unretired(s, m);
    assert m != k && policy.KeepFirst? && !Unretired(s, k) ==> s.instances[m].id != s.instances[k].id;
  }

  lemma {:induction false} OthersInserted(policy: Policy, s: State, l: nat, k: nat)
    requires UniqueInv(policy, s) && IsStarting(s, l) && Found(s, k) && s.instances[k].registration.Registered?
    ensures Found(InsertEntry(policy, s, l), k)
  {
  }

  lemma {:induction false} StaleKeptFor(policy: Policy, s: State, e: Event, k: nat)
    requires StaleInv(s) && EntryInv(s) && k in Step(policy, s, e).instances
    ensures var t := Step(policy, s, e); Found(t, k) && Is(t, k, Processed) ==> k in t.late
  {
  }

  lemma {:induction false} LateKept(policy: Policy, s: State, e: Event)
    requires StaleInv(s) && InboxInv(s)
    ensures var t := Step(policy, s, e); forall k <- t.late :: Is(t, k, Processed) && t.instances[k].registration.Registered?
  {
  }

  lemma {:induction false} StaleKept(policy: Policy, s: State, e: Event)
    requires Inv(policy, s)
    ensures StaleInv(Step(policy, s, e))
  {
    var t := Step(policy, s, e);
    forall k | k in t.instances ensures Found(t, k) && Is(t, k, Processed) ==> k in t.late {
      StaleKeptFor(policy, s, e, k);
    }
    LateKept(policy, s, e);
  }

  lemma {:induction false} RejectedKept(policy: Policy, s: State, e: Event)
    requires UniqueInv(policy, s) && InboxInv(s) && RejectedInv(s)
    ensures RejectedInv(Step(policy, s, e))
  {
    var t := Step(policy, s, e);
    if !t.drained {
      forall k | k in t.instances && t.instances[k].registration.Rejected? && Unretired(t, k)
        ensures t.instances[k].id in t.entries
      {
        if k in s.instances {
          OnlyRetire(policy, s, e, k);
          RejectedKeptFor(policy, s, e, k);
        } else {
          OnlyStarted(policy, s, e, k);
        }
      }
    }
  }

  lemma {:induction false} RejectedKeptFor(policy: Policy, s: State, e: Event, k: nat)
    requires UniqueInv(policy, s) && InboxInv(s) && k in s.instances && Unretired(s, k) && !Step(policy, s, e).drained
    requires s.instances[k].registration.Rejected? ==> s.instances[k].id in s.entries
    ensures var t := Step(policy, s, e);
            t.instances[k].registration.Rejected? && Unretired(t, k) ==> t.instances[k].id in t.entries
  {
    if e.Process? && s.inbox != [] {
      assert Is(s, s.inbox[0], Notified) && Unretired(s, s.inbox[0]);
    }
  }

  lemma {:induction false} StepKeeps(policy: Policy, s: State, e: Event)
    requires Inv(policy, s) && (e.Start? ==> Free(policy, s, e.id))
    ensures Inv(policy, Step(policy, s, e))
  {
    UniqueKept(policy, s, e);
    InboxKept(policy, s, e);
    EntryKept(policy, s, e);
    SoundKept(policy, s, e);
    StaleKept(policy, s, e);
    RejectedKept(policy, s, e);
  }

  lemma {:induction false} Reachable(policy: Policy, events: seq<Event>)
    requires FreshRun(policy, events)
    ensures Inv(policy, Run(policy, INITIAL, events))
  {
    if events == [] {
    } else {
      Reachable(policy, events[..|events| - 1]);
      StepKeeps(policy, Run(policy, INITIAL, events[..|events| - 1]), events[|events| - 1]);
    }
  }

  // ----- what the registries promise

  /** Registry soundness under fresh ids.  From its registration until the manager processes its
      own stopped message or drains the map, a worker's id maps to that worker.  An entry whose
      worker is gone has the message about to be sent or in the inbox, or no message will come:
      the worker never ran, or its message was processed before the entry was inserted. */
  lemma {:induction false} RegistrySound(policy: Policy, events: seq<Event>, k: nat)
    requires FreshRun(policy, events) && k in Run(policy, INITIAL, events).instances
    ensures var s := Run(policy, INITIAL, events);
            && (!s.drained && s.instances[k].registration.Registered? && Unretired(s, k) ==> Found(s, k))
            && (Found(s, k) ==> Is(s, k, Running) || Is(s, k, Exited) || k in s.inbox || Is(s, k, NeverRan) || k in s.late)
  {
    Reachable(policy, events);
  }

  /** Exactly which entries are there, while the map is not drained and the id not reused: that of
      a registered worker whose message is still to be processed, that never ran, or whose
      message was processed before the insertion. */
  lemma {:induction false} EntryIff(policy: Policy, events: seq<Event>, k: nat)
    requires FreshRun(policy, events)
    requires var s := Run(policy, INITIAL, events);
             !s.drained && k in s.instances && s.instances[k].registration.Registered? && OnlyHolder(s, k)
    ensures var s := Run(policy, INITIAL, events);
            && (Found(s, k) <==> Unretired(s, k) || Is(s, k, NeverRan) || k in s.late)
            && (Is(s, k, Processed) ==> (Found(s, k) <==> k in s.late))
  {
    Reachable(policy, events);
    var s := Run(policy, INITIAL, events);
    assert Stays(s, k) ==> Found(s, k);
  }

  /** A stopped message removes the entry of its sender, or a leftover entry of a worker that
      sends no more messages: never that of a worker still to be heard of. */
  lemma {:induction false} NeverRemovesAnother(policy: Policy, events: seq<Event>)
    requires FreshRun(policy, events)
    ensures var s := Run(policy, INITIAL, events);
            var t := Step(policy, s, Process);
            forall k <- s.instances :: Found(s, k) && !Found(t, k) ==>
              s.inbox != [] && (k == s.inbox[0] || (policy.KeepFirst? && !Unretired(s, k)))
  {
    Reachable(policy, events);
    var s := Run(policy, INITIAL, events);
    forall k | k in s.instances && Found(s, k) && !Found(Step(policy, s, Process), k)
      ensures s.inbox != [] && (k == s.inbox[0] || (policy.KeepFirst? && !Unretired(s, k)))
    {
      ProcessRemoves(policy, s, k);
    }
  }

  lemma {:induction false} ProcessRemoves(policy: Policy, s: State, k: nat)
    requires UniqueInv(policy, s) && InboxInv(s) && Found(s, k) && !Found(Step(policy, s, Process), k)
    ensures s.inbox != [] && (k == s.inbox[0] || (policy.KeepFirst? && !Unretired(s, k)))
  {
    if s.inbox != [] {
      assert Is(s, s.inbox[0], Notified);
    }
  }

  /** No message of worker `k` will ever come, but it is registered; nobody else has its id. */
  ghost predicate Leaked(s: State, k: nat) {
    && k in s.instances && !Unretired(s, k) && s.instances[k].registration.Registered? && k !in s.inbox
    && (s.drained || Found(s, k))
    && OnlyHolder(s, k)
  }

  lemma {:induction false} LeakedKept(policy: Policy, s: State, e: Event, k: nat)
    requires Leaked(s, k) && (e.Start? ==> e.id != s.instances[k].id)
    ensures var t := Step(policy, s, e); Leaked(t, k) && t.instances[k].id == s.instances[k].id
  {
    var t := Step(policy, s, e);
    OnlyRetire(policy, s, e, k);
    forall l | l in t.instances && t.instances[l].id == t.instances[k].id ensures l == k {
      if l in s.instances { OnlyRetire(policy, s, e, l); } else { OnlyStarted(policy, s, e, l); }
    }
  }

  /** A leaked entry stays until the map is drained, as long as no later worker is given the same
      id. */
  lemma {:induction false} LateEntryStays(policy: Policy, s: State, events: seq<Event>, k: nat)
    requires Leaked(s, k) && forall e <- events :: e.Start? ==> e.id != s.instances[k].id
    ensures var t := Run(policy, s, events);
            Leaked(t, k) && t.instances[k].id == s.instances[k].id && (t.drained || Found(t, k))
  {
    if events == [] {
    } else {
      LateEntryStays(policy, s, events[..|events| - 1], k);
      LeakedKept(policy, Run(policy, s, events[..|events| - 1]), events[|events| - 1], k);
    }
  }

  /** Stopping a manager, from any state: its worker ends, nothing it has not processed is processed any
      more, and draining leaves the map empty. */
  lemma {:induction false} StopEmpties(policy: Policy, s: State)
    ensures var ended := Step(policy, s, EndManager);
            var stopped := Step(policy, ended, Drain);
            && Step(policy, ended, Process) == ended && ended.entries == s.entries
            && stopped.entries == map[] && stopped.drained && stopped.instances == s.instances
    ensures s.managing ==> Step(policy, s, Drain) == s
  {
  }

  /** The manager drains its map, in some call of its `stop`, after its own worker has ended. */
  ghost predicate DrainedIn(events: seq<Event>) {
    exists i | 0 <= i < |events| :: events[i].Drain? && EndManager in events[..i]
  }

  lemma {:induction false} ManagingStep(policy: Policy, s: State, e: Event)
    ensures Step(policy, s, e).managing == (s.managing && e != EndManager)
    ensures Step(policy, s, e).drained == (s.drained || (e.Drain? && !s.managing))
  {
  }

  lemma {:induction false} DrainedSnoc(before: seq<Event>, e: Event)
    ensures DrainedIn(before + [e]) <==> DrainedIn(before) || (e.Drain? && EndManager in before)
  {
    var events := before + [e];
    forall i | 0 <= i < |before| ensures before[i] == events[i] && before[..i] == events[..i] {
    }
    assert events[|before|] == e && events[..|before|] == before;
  }

  /** A manager manages until its worker has ended, and its map is kept until it is drained after that. */
  lemma {:induction false} ManagesUntilStopped(policy: Policy, events: seq<Event>)
    ensures Run(policy, INITIAL, events).managing <==> EndManager !in events
    ensures Run(policy, INITIAL, events).drained <==> DrainedIn(events)
  {
    if events != [] {
      var before, e := events[..|events| - 1], events[|events| - 1];
      ManagesUntilStopped(policy, before);
      ManagingStep(policy, Run(policy, INITIAL, before), e);
      hide Step, DrainedIn;
      assert events == before + [e];
      DrainedSnoc(before, e);
    }
  }

  // ----- longer runs

  lemma {:induction false} RunSnoc(policy: Policy, s: State, events: seq<Event>, e: Event)
    ensures Run(policy, s, events + [e]) == Step(policy, Run(policy, s, events), e)
  {
    assert (events + [e])[..|events|] == events;
  }

  lemma {:induction false} RunOne(policy: Policy, s: State, e: Event)
    ensures Run(policy, s, [e]) == Step(policy, s, e)
  {
    hide Step;
    RunSnoc(policy, s, [], e);
    assert [] + [e] == [e];
  }

  lemma {:induction false} RunTwo(policy: Policy, s: State, a: Event, b: Event)
    ensures Run(policy, s, [a, b]) == Step(policy, Step(policy, s, a), b)
  {
    hide Step;
    RunOne(policy, s, a);
    RunSnoc(policy, s, [a], b);
    assert [a] + [b] == [a, b];
  }

  /** The workers whose message is sent, or processed, by an event. */
  function NotifiedBy(s: State, e: Event): seq<nat> {
    if e.Notify? && Is(s, e.worker, Exited) then [e.worker] else []
  }

  function ProcessedBy(s: State, e: Event): seq<nat> {
    if e.Process? && s.managing && s.inbox != [] && s.inbox[0] in s.instances then [s.inbox[0]] else []
  }

  function NotifiedIn(policy: Policy, s: State, events: seq<Event>): seq<nat> {
    if events == [] then []
    else
      var before := events[..|events| - 1];
      NotifiedIn(policy, s, before) + NotifiedBy(Run(policy, s, before), events[|events| - 1])
  }

  function ProcessedIn(policy: Policy, s: State, events: seq<Event>): seq<nat> {
    if events == [] then []
    else
      var before := events[..|events| - 1];
      ProcessedIn(policy, s, before) + ProcessedBy(Run(policy, s, before), events[|events| - 1])
  }

  lemma {:induction false} InboxStep(policy: Policy, s: State, e: Event)
    ensures ProcessedBy(s, e) + Step(policy, s, e).inbox == s.inbox + NotifiedBy(s, e)
  {
    if ProcessedBy(s, e) != [] {
      assert s.inbox == [s.inbox[0]] + s.inbox[1..];
    }
  }

  /** Stopped messages are processed in the order in which they were sent, each once. */
  lemma {:induction false} ProcessedInOrder(policy: Policy, s: State, events: seq<Event>)
    ensures ProcessedIn(policy, s, events) + Run(policy, s, events).inbox == s.inbox + NotifiedIn(policy, s, events)
  {
    if events == [] {
      assert [] + s.inbox == s.inbox + [];
    } else {
      var before, e := events[..|events| - 1], events[|events| - 1];
      var t := Run(policy, s, before);
      ProcessedInOrder(policy, s, before);
      InboxStep(policy, t, e);
      hide Step, NotifiedBy, ProcessedBy;
      Associative(ProcessedIn(policy, s, before), ProcessedBy(t, e), Step(policy, t, e).inbox);
      Associative(ProcessedIn(policy, s, before), t.inbox, NotifiedBy(t, e));
      Associative(s.inbox, NotifiedIn(policy, s, before), NotifiedBy(t, e));
    }
  }

  /** The manager works off its inbox up to the message of `l`; a worker `k` with no message there is
      left alone. */
  lemma {:induction false} WorkOff(policy: Policy, s: State, l: nat, k: nat) returns (events: seq<Event>)
    requires InboxInv(s) && s.managing && l in s.inbox
    ensures forall e <- events :: e.Process?
    ensures var t := Run(policy, s, events);
            && l in s.instances && s.instances[l].id !in t.entries
            && l in t.instances && t.instances[l].id == s.instances[l].id
            && (k in s.instances && k !in s.inbox ==> k in t.instances && t.instances[k] == s.instances[k])
    decreases |s.inbox|
  {
    assert Is(s, l, Notified) && Is(s, s.inbox[0], Notified);
    InboxKept(policy, s, Process);
    var t := Step(policy, s, Process);
    RunSnoc(policy, s, [], Process);
    if s.inbox[0] == l {
      events := [] + [Process];
    } else {
      assert s.inbox == [s.inbox[0]] + t.inbox;
      var rest := WorkOff(policy, t, l, k);
      RunConcat(policy, s, [] + [Process], rest);
      events := [] + [Process] + rest;
    }
  }

  lemma {:induction false} RunConcat(policy: Policy, s: State, a: seq<Event>, b: seq<Event>)
    ensures Run(policy, s, a + b) == Run(policy, Run(policy, s, a), b)
    decreases |b|
  {
    hide Step;
    if b == [] {
      assert a + b == a;
    } else {
      RunConcat(policy, s, a, b[..|b| - 1]);
      ConcatLast(a, b);
      RunSnoc(policy, s, a + b[..|b| - 1], b[|b| - 1]);
    }
  }

  // ----- counted ids

  const ID_RANGE: nat := 0x1_0000_0000_0000_0000

  /** The generator's `n`-th id. */
  function IdAt(n: nat): Id {
    n % ID_RANGE
  }

  function StartCount(events: seq<Event>): nat {
    if events == [] then 0
    else StartCount(events[..|events| - 1]) + if events[|events| - 1].Start? then 1 else 0
  }

  /** Ids come from the generator: the n-th start gets id n, in a 64-bit counter that wraps. */
  predicate Counted(events: seq<Event>) {
    events == [] ||
      var before, e := events[..|events| - 1], events[|events| - 1];
      Counted(before) && (e.Start? ==> e.id == IdAt(StartCount(before)))
  }

  /** The workers started so far, each under an id counted before now. */
  lemma {:induction false} IdsBelow(policy: Policy, events: seq<Event>, k: nat)
    requires Counted(events) && StartCount(events) <= ID_RANGE && k in Run(policy, INITIAL, events).instances
    ensures Run(policy, INITIAL, events).instances[k].id < StartCount(events)
  {
    var before, e := events[..|events| - 1], events[|events| - 1];
    var s := Run(policy, INITIAL, before);
    if k in s.instances {
      IdsBelow(policy, before, k);
      OnlyRetire(policy, s, e, k);
    } else {
      OnlyStarted(policy, s, e, k);
    }
  }

  /** Within the generator's range counted ids are fresh in the strongest sense, so all of the
      above holds of connections for any interleaving of spawns and exits. */
  lemma {:induction false} CountedIsFresh(policy: Policy, events: seq<Event>)
    requires Counted(events) && StartCount(events) <= ID_RANGE
    ensures FreshRun(policy, events)
  {
    if events == [] {
    } else {
      var before, e := events[..|events| - 1], events[|events| - 1];
      CountedIsFresh(policy, before);
      if e.Start? {
        forall k | k in Run(policy, INITIAL, before).instances
          ensures Run(policy, INITIAL, before).instances[k].id != e.id
        {
          IdsBelow(policy, before, k);
        }
      }
    }
  }
}
