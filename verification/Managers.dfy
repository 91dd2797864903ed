/** `SessionManager` and `ConnectionManager` as the source writes them: a shared map that requests
    insert into and look up, and that the manager's worker removes from.  Each method is what
    happens between two await points, proved against the registry protocol. */
module Managers {
  import opened Wrappers
  import opened Registry

  lemma {:induction false} KeepsIf(policy: Policy, s: State, e: Event)
    ensures Inv(policy, s) && (e.Start? ==> Free(policy, s, e.id)) ==> Inv(policy, Step(policy, s, e))
  {
    if Inv(policy, s) && (e.Start? ==> Free(policy, s, e.id)) {
      StepKeeps(policy, s, e);
    }
  }

  class Manager {
    const policy: Policy
    var entries: map<Id, nat>
    var instances: map<nat, Instance>
    var inbox: seq<nat>
    var managing: bool
    var drained: bool
    ghost var late: set<nat>

    ghost function View(): State
      reads this
    {
      State(entries, instances, inbox, managing, drained, late)
    }

    constructor (policy: Policy)
      ensures View() == INITIAL && this.policy == policy
    {
      this.policy := policy;
      entries, instances, inbox, managing, drained, late := map[], map[], [], true, false, {};
    }

    /** The worker is spawned, before there is an entry for it. */
    method StartWorker(k: nat, id: Id, spawned: bool)
      requires k !in instances
      modifies this`instances
      ensures View() == Step(policy, old(View()), Start(k, id, spawned))
      ensures Inv(policy, old(View())) && Free(policy, old(View()), id) ==> Inv(policy, View())
    {
      KeepsIf(policy, View(), Start(k, id, spawned));
      instances := instances[k := Instance(id, if spawned then Running else NeverRan, Starting)];
    }

    /** The entry is inserted; the session manager refuses an id that is already there. */
    method Register(k: nat) returns (registered: bool)
      requires k in instances && instances[k].registration.Starting?
      modifies this
      ensures View() == Step(policy, old(View()), Insert(k))
      ensures Inv(policy, old(View())) ==> Inv(policy, View())
      ensures registered <==> policy.Overwrite? || instances[k].id !in old(entries)
      ensures registered ==> Found(View(), k) && entries == old(entries)[instances[k].id := k]
      ensures !registered ==> instances[k].registration.Rejected? && entries == old(entries)
    {
      KeepsIf(policy, View(), Insert(k));
      var inst := instances[k];
      if policy.KeepFirst? && inst.id in entries {
        instances := instances[k := inst.(registration := Rejected)];
        return false;
      }
      instances := instances[k := inst.(registration := Registered)];
      entries := entries[inst.id := k];
      if inst.worker.Processed? {
        late := late + {k};
      }
      return true;
    }

    /** `play` and `teardown` look the id up and work on what they find. */
    method Find(id: Id) returns (r: Option<nat>)
      ensures r.Some? <==> id in entries
      ensures r.Some? ==> r.value == entries[id]
      ensures EntryInv(View()) && r.Some? ==> r.value in instances && instances[r.value].id == id
    {
      if id in entries {
        return Some(entries[id]);
      }
      return None;
    }

    /** One turn of the manager's worker. */
    method OnStopped() returns (id: Id)
      requires InboxInv(View()) && managing && inbox != []
      modifies this
      ensures View() == Step(policy, old(View()), Process)
      ensures Inv(policy, old(View())) ==> Inv(policy, View())
      ensures id !in entries && forall other :: other in old(entries) && other != id ==> other in entries && entries[other] == old(entries)[other]
    {
      assert Is(View(), inbox[0], Notified);
      KeepsIf(policy, View(), Process);
      var k := inbox[0];
      id := instances[k].id;
      inbox := inbox[1..];
      instances := instances[k := instances[k].(worker := Processed)];
      entries := entries - {id};
    }

    /** `stop`, once the manager's worker has ended: every entry is taken out and stopped. */
    method Stop() returns (stopped: set<nat>)
      requires !managing
      modifies this
      ensures View() == Step(policy, old(View()), Drain)
      ensures Inv(policy, old(View())) ==> Inv(policy, View())
      ensures stopped == old(entries).Values && entries == map[]
    {
      KeepsIf(policy, View(), Drain);
      stopped := entries.Values;
      entries, drained := map[], true;
    }
  }

  /** `ConnectionIdGenerator`: a 64-bit counter. */
  class ConnectionIdGenerator {
    var next: nat

    constructor ()
      ensures next == 0
    {
      next := 0;
    }

    method Generate() returns (id: Id)
      modifies this
      ensures id == old(next) && next == (old(next) + 1) % ID_RANGE
      ensures old(next) < 0xffff_ffff_ffff_ffff ==> next == old(next) + 1
      ensures old(next) == 0xffff_ffff_ffff_ffff ==> next == 0
    {
      id := next;
      next := (next + 1) % ID_RANGE;
    }
  }

  /** A spawn under the next id, as two more events of a counted run. */
  lemma {:induction false} SpawnEvents(events: seq<Event>, k: nat, id: Id, spawned: bool) returns (events': seq<Event>)
    requires Counted(events) && id == IdAt(StartCount(events))
    ensures events <= events' && Counted(events') && StartCount(events') == StartCount(events) + 1
    ensures Run(Overwrite, INITIAL, events')
            == Step(Overwrite, Step(Overwrite, Run(Overwrite, INITIAL, events), Start(k, id, spawned)), Insert(k))
  {
    var started := events + [Start(k, id, spawned)];
    events' := started + [Insert(k)];
    assert started[..|started| - 1] == events && events'[..|events'| - 1] == started;
  }

  /** A connection that has been spawned is in the map, under its id. */
  lemma {:induction false} Spawned(s: State, k: nat, id: Id, spawned: bool)
    requires k !in s.instances
    ensures var t := Step(Overwrite, s, Start(k, id, spawned));
            && k in t.instances && t.instances[k].registration.Starting?
            && var u := Step(Overwrite, t, Insert(k));
            id in u.entries && u.entries[id] == k
  {
  }

  lemma {:induction false} CounterNext(n: nat)
    ensures (IdAt(n) + 1) % ID_RANGE == IdAt(n + 1)
  {
  }

  lemma {:induction false} CountedSound(events: seq<Event>)
    requires Counted(events)
    ensures StartCount(events) <= ID_RANGE ==> Inv(Overwrite, Run(Overwrite, INITIAL, events))
  {
    if StartCount(events) <= ID_RANGE {
      CountedIsFresh(Overwrite, events);
      Reachable(Overwrite, events);
    }
  }

  /** `ConnectionManager::spawn`: draw the next id, start the worker (unless the task manager is
      stopping), insert its entry.  With the generator in step with the number of starts, the run
      stays counted; within the generator's range it therefore keeps the registry's invariant. */
  method SpawnConnection(manager: Manager, generator: ConnectionIdGenerator, k: nat, spawned: bool, ghost events: seq<Event>) returns (id: Id, ghost events': seq<Event>)
    requires manager.policy == Overwrite && k !in manager.instances
    requires manager.View() == Run(Overwrite, INITIAL, events) && Counted(events)
    requires generator.next == IdAt(StartCount(events))
    modifies manager, generator
    ensures manager.View() == Run(Overwrite, INITIAL, events') && Counted(events') && events <= events'
    ensures generator.next == IdAt(StartCount(events'))
    ensures StartCount(events') <= ID_RANGE ==> Inv(Overwrite, manager.View())
    ensures id == IdAt(StartCount(events)) && id in manager.entries && manager.entries[id] == k
  {
    Spawned(manager.View(), k, generator.next, spawned);
    hide Step, Inv, Counted, Run, IdAt, Found, Free, StartCount;
    events' := SpawnEvents(events, k, generator.next, spawned);
    CountedSound(events');
    CounterNext(StartCount(events));
    id := generator.Generate();
    manager.StartWorker(k, id, spawned);
    var _ := manager.Register(k);
  }
}
