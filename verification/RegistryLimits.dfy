/** Where the registries fall short, exactly: which insertions leak an entry, and which draws of an
    id already used take a running worker's entry away. */
module RegistryLimits {
  import opened Registry

  // ----- a worker's way out of the map

  /** Nothing starts and the map is not drained. */
  predicate Quiet(events: seq<Event>) {
    forall e <- events :: !e.Start? && !e.Drain?
  }

  /** What worker `l` still has to do to send its message. */
  function Farewell(s: State, l: nat): seq<Event>
    requires Unretired(s, l)
  {
    if s.instances[l].worker.Running? then [Exit(l), Notify(l)]
    else if s.instances[l].worker.Exited? then [Notify(l)]
    else []
  }

  /** `t` is `s` with the message of `l` in the inbox, and nothing else of note. */
  predicate Announced(s: State, t: State, l: nat)
    requires l in s.instances
  {
    && l in t.inbox && t.entries == s.entries && t.managing == s.managing
    && t.instances == s.instances[l := s.instances[l].(worker := Notified)]
  }

  lemma {:induction false} Announces(policy: Policy, s: State, l: nat)
    requires Is(s, l, Exited)
    ensures Announced(s, Step(policy, s, Notify(l)), l)
  {
  }

  lemma {:induction false} ExitsFirst(policy: Policy, s: State, l: nat)
    requires Is(s, l, Running)
    ensures var t := Step(policy, s, Exit(l));
            Is(t, l, Exited) && (forall u :: Announced(t, u, l) ==> Announced(s, u, l))
  {
  }

  lemma {:induction false} Leaves(policy: Policy, s: State, l: nat)
    requires InboxInv(s) && Unretired(s, l)
    ensures var t := Run(policy, s, Farewell(s, l)); InboxInv(t) && Announced(s, t, l)
  {
    hide Run, Step, InboxInv;
    if s.instances[l].worker.Running? {
      ExitsFirst(policy, s, l);
      var t := Step(policy, s, Exit(l));
      Announces(policy, t, l);
      InboxKept(policy, s, Exit(l));
      InboxKept(policy, t, Notify(l));
      RunTwo(policy, s, Exit(l), Notify(l));
      hide Announced;
    } else if s.instances[l].worker.Exited? {
      Announces(policy, s, l);
      InboxKept(policy, s, Notify(l));
      RunOne(policy, s, Notify(l));
      hide Announced;
    } else {
      AlreadyAnnounced(policy, s, l);
    }
  }

  lemma {:induction false} AlreadyAnnounced(policy: Policy, s: State, l: nat)
    requires InboxInv(s) && Is(s, l, Notified)
    ensures Run(policy, s, []) == s && Announced(s, s, l)
  {
    assert s.instances[l].(worker := Notified) == s.instances[l];
  }

  /** A worker whose message is to come can always leave, and take the entry under its id with it,
      whoever's it is; a running worker does not notice. */
  lemma {:induction false} TakesEntryAlong(policy: Policy, s: State, l: nat, k: nat) returns (events: seq<Event>)
    requires InboxInv(s) && s.managing && Unretired(s, l)
    ensures Quiet(events)
    ensures var t := Run(policy, s, events);
            && s.instances[l].id !in t.entries && l in t.instances && t.instances[l].id == s.instances[l].id
            && (k != l && Is(s, k, Running) ==> k in t.instances && t.instances[k] == s.instances[k])
  {
    Leaves(policy, s, l);
    var t := Run(policy, s, Farewell(s, l));
    assert k in t.inbox ==> Is(t, k, Notified);
    var rest := WorkOff(policy, t, l, k);
    RunConcat(policy, s, Farewell(s, l), rest);
    events := Farewell(s, l) + rest;
  }

  // ----- insertions that leak

  /** The map is not drained and nobody is given this id. */
  predicate Sparing(events: seq<Event>, id: Id) {
    forall e <- events :: !e.Drain? && (e.Start? ==> e.id != id)
  }

  /** The entry of `k` is there, and no message will be processed for it. */
  ghost predicate Pinned(s: State, k: nat) {
    && Found(s, k) && OnlyHolder(s, k) && s.instances[k].registration.Registered?
    && (!s.managing || (!Unretired(s, k) && k !in s.inbox))
  }

  lemma {:induction false} PinnedStep(policy: Policy, s: State, e: Event, k: nat)
    requires Pinned(s, k) && !e.Drain? && (e.Start? ==> e.id != s.instances[k].id)
    ensures Pinned(Step(policy, s, e), k) && Step(policy, s, e).instances[k].id == s.instances[k].id
  {
    var t := Step(policy, s, e);
    OnlyRetire(policy, s, e, k);
    forall l | l in t.instances && t.instances[l].id == t.instances[k].id ensures l == k {
      if l in s.instances { OnlyRetire(policy, s, e, l); } else { OnlyStarted(policy, s, e, l); }
    }
  }

  lemma {:induction false} PinnedRun(policy: Policy, s: State, events: seq<Event>, k: nat)
    requires Pinned(s, k) && Sparing(events, s.instances[k].id)
    ensures var t := Run(policy, s, events); Pinned(t, k) && t.instances[k].id == s.instances[k].id
  {
    if events == [] {
    } else {
      var front, e := events[..|events| - 1], events[|events| - 1];
      assert e in events && forall d <- front :: d in events;
      PinnedRun(policy, s, front, k);
      hide Pinned, Step;
      PinnedStep(policy, Run(policy, s, front), e, k);
    }
  }

  lemma {:induction false} Inserted(policy: Policy, s: State, k: nat)
    requires EntryInv(s) && InboxInv(s) && IsStarting(s, k) && OnlyHolder(s, k)
    ensures var t := Step(policy, s, Insert(k));
            && InboxInv(t) && Found(t, k) && t.managing == s.managing
            && t.instances[k] == s.instances[k].(registration := Registered)
            && (!s.managing || Is(s, k, Processed) || Is(s, k, NeverRan) ==> Pinned(t, k))
  {
    var t := Step(policy, s, Insert(k));
    InboxKept(policy, s, Insert(k));
    assert s.instances[k].id !in s.entries;
    forall l | l in t.instances && t.instances[l].id == t.instances[k].id ensures l == k {
      assert l in s.instances && s.instances[l].id == s.instances[k].id;
    }
    assert k in t.inbox ==> Is(t, k, Notified);
  }

  /** Every continuation that does not drain the map nor reuse the id leaves the entry there. */
  ghost predicate Stuck(policy: Policy, t: State, k: nat)
    requires k in t.instances
  {
    forall more :: Sparing(more, t.instances[k].id) ==> Found(Run(policy, t, more), k)
  }

  /** Which insertions leak.  In any run with fresh ids, the entry a worker is given can never be
      removed again, short of draining the map or reusing the id, if and only if at its insertion
      the manager's worker has ended, or the stopped message was processed before, or the worker
      never ran.  In every other case there is a continuation that removes it. */
  lemma {:induction false} LateEntry(policy: Policy, events: seq<Event>, k: nat)
    requires FreshRun(policy, events)
    requires var s := Run(policy, INITIAL, events); IsStarting(s, k) && OnlyHolder(s, k)
    ensures var s := Run(policy, INITIAL, events);
            var t := Step(policy, s, Insert(k));
            && Found(t, k)
            && (Stuck(policy, t, k) <==> !s.managing || Is(s, k, Processed) || Is(s, k, NeverRan))
  {
    Reachable(policy, events);
    var s := Run(policy, INITIAL, events);
    Inserted(policy, s, k);
    var t := Step(policy, s, Insert(k));
    hide Run, Step, Inv;
    StuckIff(policy, t, k);
  }

  lemma {:induction false} StuckIff(policy: Policy, t: State, k: nat)
    requires InboxInv(t) && Found(t, k) && ((t.managing && Unretired(t, k)) || Pinned(t, k))
    ensures Stuck(policy, t, k) <==> !(t.managing && Unretired(t, k))
  {
    if t.managing && Unretired(t, k) {
      var more := TakesEntryAlong(policy, t, k, k);
      assert Sparing(more, t.instances[k].id);
    } else {
      forall more | Sparing(more, t.instances[k].id) ensures Found(Run(policy, t, more), k) {
        PinnedRun(policy, t, more, k);
      }
    }
  }

  // ----- ids drawn twice

  predicate Holds(s: State, k: nat, x: Id) {
    k in s.instances && s.instances[k].id == x
  }

  predicate Serving(s: State, k: nat) {
    Is(s, k, Running) && s.instances[k].registration.Registered?
  }

  /** A registered worker with id `x` runs without its entry. */
  ghost predicate Harmed(s: State, x: Id) {
    exists w :: Holds(s, w, x) && Serving(s, w) && !Found(s, w)
  }

  /** Drawing `x` again would collide with worker `k`: it is registered and running, or its entry is
      still to be inserted and nothing is under its id yet. */
  predicate Endangered(s: State, k: nat, x: Id) {
    Holds(s, k, x) && (Serving(s, k) || (Unretired(s, k) && IsStarting(s, k) && x !in s.entries))
  }

  ghost predicate Dangerous(s: State, x: Id) {
    exists k :: Endangered(s, k, x)
  }

  /** How it goes wrong: whichever of the two gets no entry sends its message and so removes the
      other's. */
  lemma {:induction false} Harm(s: State, k: nat, n: nat, x: Id) returns (more: seq<Event>)
    requires InboxInv(s) && s.managing && n !in s.instances && Endangered(s, k, x)
    ensures Quiet(more) && Harmed(Run(KeepFirst, Step(KeepFirst, s, Start(n, x, true)), more), x)
  {
    var t := Step(KeepFirst, s, Start(n, x, true));
    InboxKept(KeepFirst, s, Start(n, x, true));
    if Serving(s, k) {
      more := TakesEntryAlong(KeepFirst, t, n, k);
      assert Holds(Run(KeepFirst, t, more), k, x);
    } else {
      var u := Step(KeepFirst, t, Insert(n));
      InboxKept(KeepFirst, t, Insert(n));
      var rest := TakesEntryAlong(KeepFirst, u, k, n);
      RunSnoc(KeepFirst, t, [], Insert(n));
      RunConcat(KeepFirst, t, [] + [Insert(n)], rest);
      more := [] + [Insert(n)] + rest;
      assert Holds(Run(KeepFirst, t, more), n, x);
    }
  }

  /** Only `k` and `n` can still send a message for `x`. */
  ghost predicate OnlyTwo(s: State, x: Id, k: nat, n: nat) {
    forall w :: Holds(s, w, x) && Unretired(s, w) ==> w == k || w == n
  }

  /** While both can, something is under `x` and neither is registered and running. */
  predicate NoClash(s: State, x: Id, k: nat, n: nat) {
    && Holds(s, k, x) && Holds(s, n, x)
    && (k != n && Unretired(s, k) && Unretired(s, n) ==> x in s.entries && !Serving(s, k) && !Serving(s, n))
  }

  ghost predicate Harmless(s: State, x: Id, k: nat, n: nat) {
    OnlyTwo(s, x, k, n) && NoClash(s, x, k, n) && !Harmed(s, x)
  }

  lemma {:induction false} HeldBefore(s: State, e: Event, x: Id, w: nat)
    requires !e.Start?
    ensures var t := Step(KeepFirst, s, e);
            && (Holds(t, w, x) <==> Holds(s, w, x)) && (Unretired(t, w) ==> Unretired(s, w))
            && (Serving(t, w) && !Serving(s, w) ==> e == Insert(w) && (Holds(s, w, x) ==> x !in s.entries && Found(t, w)))
  {
  }

  /** Under `x` an entry goes only with a message for `x`. */
  lemma {:induction false} EntriesAfter(s: State, e: Event, x: Id)
    requires InboxInv(s) && !e.Start? && !e.Drain?
    ensures var t := Step(KeepFirst, s, e);
            x in s.entries && (x !in t.entries || t.entries[x] != s.entries[x]) ==>
              e.Process? && s.inbox != [] && Holds(s, s.inbox[0], x) && Unretired(s, s.inbox[0]) && !Unretired(t, s.inbox[0])
  {
    if s.inbox != [] {
      assert Is(s, s.inbox[0], Notified);
    }
  }

  lemma {:induction false} NoClashStep(s: State, e: Event, x: Id, k: nat, n: nat)
    requires Harmless(s, x, k, n) && InboxInv(s) && !e.Start? && !e.Drain?
    ensures NoClash(Step(KeepFirst, s, e), x, k, n)
  {
    HeldBefore(s, e, x, k);
    HeldBefore(s, e, x, n);
    EntriesAfter(s, e, x);
    hide Step, InboxInv, Serving, Unretired;
  }

  lemma {:induction false} NoHarmStep(s: State, e: Event, x: Id, k: nat, n: nat, w: nat)
    requires Harmless(s, x, k, n) && InboxInv(s) && !e.Start? && !e.Drain?
    requires var t := Step(KeepFirst, s, e); Holds(t, w, x) && Serving(t, w)
    ensures Found(Step(KeepFirst, s, e), w)
  {
    HeldBefore(s, e, x, w);
    EntriesAfter(s, e, x);
    assert Unretired(Step(KeepFirst, s, e), w);
    assert Serving(s, w) ==> Found(s, w);
    hide Step, InboxInv, Serving, Unretired;
  }

  lemma {:induction false} HarmlessStep(s: State, e: Event, x: Id, k: nat, n: nat)
    requires Harmless(s, x, k, n) && InboxInv(s) && !e.Start? && !e.Drain?
    ensures Harmless(Step(KeepFirst, s, e), x, k, n)
  {
    var t := Step(KeepFirst, s, e);
    NoClashStep(s, e, x, k, n);
    forall w | Holds(t, w, x) && Unretired(t, w) ensures w == k || w == n {
      HeldBefore(s, e, x, w);
    }
    forall w | Holds(t, w, x) && Serving(t, w) ensures Found(t, w) {
      NoHarmStep(s, e, x, k, n, w);
    }
    hide Step, InboxInv, NoClash, Serving, Unretired, Holds;
  }

  lemma {:induction false} HarmlessRun(s: State, more: seq<Event>, x: Id, k: nat, n: nat)
    requires Harmless(s, x, k, n) && InboxInv(s) && Quiet(more)
    ensures var t := Run(KeepFirst, s, more); Harmless(t, x, k, n) && InboxInv(t)
  {
    if more == [] {
    } else {
      var front, e := more[..|more| - 1], more[|more| - 1];
      assert e in more && forall d <- front :: d in more;
      HarmlessRun(s, front, x, k, n);
      hide Harmless, InboxInv, Step;
      HarmlessStep(Run(KeepFirst, s, front), e, x, k, n);
      InboxKept(KeepFirst, Run(KeepFirst, s, front), e);
    }
  }

  lemma {:induction false} DrawnNoHarm(s: State, n: nat, x: Id, spawned: bool, w: nat)
    requires SoundInv(s) && !s.drained && n !in s.instances
    requires var t := Step(KeepFirst, s, Start(n, x, spawned)); Holds(t, w, x) && Serving(t, w)
    ensures Found(Step(KeepFirst, s, Start(n, x, spawned)), w)
  {
    assert w != n && Stays(s, w);
  }

  /** A draw that is not dangerous, or of a worker that is not started, starts out harmless. */
  lemma {:induction false} HarmlessDraw(s: State, n: nat, x: Id, spawned: bool) returns (k: nat)
    requires Inv(KeepFirst, s) && !s.drained && n !in s.instances && !(spawned && Dangerous(s, x))
    ensures Harmless(Step(KeepFirst, s, Start(n, x, spawned)), x, k, n)
  {
    var t := Step(KeepFirst, s, Start(n, x, spawned));
    k := n;
    if w :| Holds(s, w, x) && Unretired(s, w) {
      k := w;
      assert !spawned || !Endangered(s, k, x);
      assert Stays(s, k);
    }
    forall w | Holds(t, w, x) && Unretired(t, w) ensures w == k || w == n {
      assert w != n ==> Holds(s, w, x) && Unretired(s, w);
    }
    forall w | Holds(t, w, x) && Serving(t, w) ensures Found(t, w) {
      DrawnNoHarm(s, n, x, spawned, w);
    }
  }

  /** Exactly when a repeated id does harm.  Let ids have been fresh so far, the manager be at work,
      and id `x` be drawn for one more worker.  Some continuation, in which nothing else starts and
      the map is not drained, leaves a registered worker of that id running without its entry if
      and only if the new worker is started and `x` is dangerous. */
  lemma {:induction false} Collision(events: seq<Event>, n: nat, x: Id, spawned: bool)
    requires FreshRun(KeepFirst, events)
    requires var s := Run(KeepFirst, INITIAL, events); s.managing && !s.drained && n !in s.instances
    ensures var s := Run(KeepFirst, INITIAL, events);
            (exists more :: Quiet(more) && Harmed(Run(KeepFirst, Step(KeepFirst, s, Start(n, x, spawned)), more), x))
            <==> spawned && Dangerous(s, x)
  {
    Reachable(KeepFirst, events);
    var s := Run(KeepFirst, INITIAL, events);
    if spawned && Dangerous(s, x) {
      var k :| Endangered(s, k, x);
      var more := Harm(s, k, n, x);
    } else {
      var k := HarmlessDraw(s, n, x, spawned);
      var t := Step(KeepFirst, s, Start(n, x, spawned));
      InboxKept(KeepFirst, s, Start(n, x, spawned));
      forall more | Quiet(more) ensures !Harmed(Run(KeepFirst, t, more), x) {
        HarmlessRun(t, more, x, k, n);
      }
    }
  }
}
