/** What a stranded PLAY takes with it.

    A `play` call holds its session's mutex, and it runs inside a handler of a connection's worker,
    which keeps that worker's context.  `SessionManager::teardown` and `SessionManager::stop` lock
    the session's mutex; `Task::stop` on the connection and `TaskManager::stop` wait for the
    context.  This module puts the PLAY protocol and the shutdown protocol together. */
module StrandedPlay {
  import opened Sequences
  import opened Media
  import P = PlayProtocol
  import T = TaskManager

  /** A call of `teardown` or of the session manager's `stop`, as far as this session goes. */
  datatype Teardown = Waiting | Holding | Done

  datatype Whole = Whole(
    play: P.State,
    tasks: T.State,
    connection: nat,               // the task whose handler makes the `play` calls
    teardowns: map<nat, Teardown>)

  datatype Move =
    | PlayMove(action: P.Action)
    | TaskMove(event: T.Event)
    | AskTeardown(id: nat)
    | LockSession(id: nat)
    | FinishTeardown(id: nat)

  ghost predicate SessionLocked(w: Whole) {
    !w.play.call.Idle? || exists id <- w.teardowns :: w.teardowns[id].Holding?
  }

  ghost function Do(w: Whole, m: Move): Whole {
    match m
    case PlayMove(action) =>
      // A new call needs the mutex.
      if action.Subscribe? && SessionLocked(w) then w else w.(play := P.Do(w.play, action))
    case TaskMove(event) =>
      // The connection's worker cannot end inside its handler.
      if event == T.Drop(w.connection) && !w.play.call.Idle? then w else w.(tasks := T.Step(w.tasks, event))
    case AskTeardown(id) => if id in w.teardowns then w else w.(teardowns := w.teardowns[id := Waiting])
    case LockSession(id) =>
      if id in w.teardowns && w.teardowns[id].Waiting? && !SessionLocked(w)
      then w.(teardowns := w.teardowns[id := Holding]) else w
    case FinishTeardown(id) =>
      if id in w.teardowns && w.teardowns[id].Holding? then w.(teardowns := w.teardowns[id := Done]) else w
  }

  ghost function Perform(w: Whole, moves: seq<Move>): Whole {
    if moves == [] then w
    else Do(Perform(w, moves[..|moves| - 1]), moves[|moves| - 1])
  }

  /** The call has the mutex, waits for a reply that will not come, and its connection is alive. */
  ghost predicate Blocked(w: Whole) {
    && P.Stranded(w.play) && (forall id <- w.teardowns :: !w.teardowns[id].Holding?)
    && T.Inv(w.tasks) && T.Live(w.tasks, w.connection)
  }

  /** A context goes only when its worker drops it. */
  lemma {:induction false} OnlyDropEnds(s: T.State, e: T.Event, i: nat)
    requires T.Live(s, i) && e != T.Drop(i)
    ensures T.Live(T.Step(s, e), i)
  {
    hide T.Drained;
  }

  lemma {:induction false} BlockedStep(w: Whole, m: Move)
    requires Blocked(w)
    ensures Blocked(Do(w, m))
    ensures var v := Do(w, m);
            forall id <- v.teardowns :: v.teardowns[id].Done? ==> id in w.teardowns && w.teardowns[id].Done?
  {
    match m
    case PlayMove(action) =>
      P.StrandedStep(w.play, action);
      hide P.Do, T.Inv;
    case TaskMove(event) =>
      T.StepKeeps(w.tasks, event);
      if event != T.Drop(w.connection) {
        OnlyDropEnds(w.tasks, event, w.connection);
      }
      hide T.Step, T.Inv;
    case _ =>
      hide T.Inv;
  }

  /** A stranded `play` blocks everything behind it, for ever.  Whatever happens next, no call that
      tears the session down completes any more, the connection's own `Task::stop` does not return,
      and neither does any `TaskManager::stop`. */
  lemma {:induction false} BlocksForever(w: Whole, moves: seq<Move>)
    requires Blocked(w)
    ensures var v := Perform(w, moves);
            && Blocked(v)
            && (forall id <- v.teardowns :: v.teardowns[id].Done? ==> id in w.teardowns && w.teardowns[id].Done?)
            && (v.connection in v.tasks.handles ==> !v.tasks.handles[v.connection].returned)
            && (forall j :: !T.HasReturned(v.tasks, j))
  {
    if moves == [] {
      StopsBlocked(w);
    } else {
      var front, last := moves[..|moves| - 1], moves[|moves| - 1];
      BlocksForever(w, front);
      BlockedStep(Perform(w, front), last);
      StopsBlocked(Do(Perform(w, front), last));
      hide Do, Blocked;
    }
  }

  lemma {:induction false} StopsBlocked(w: Whole)
    requires Blocked(w)
    ensures w.connection in w.tasks.handles ==> !w.tasks.handles[w.connection].returned
    ensures forall j :: !T.HasReturned(w.tasks, j)
  {
    forall j ensures !T.HasReturned(w.tasks, j) {
      assert T.HasReturned(w.tasks, j) ==> T.Drained(w.tasks);
    }
  }

  /** It takes a call in progress to block: with none, a teardown that comes or waits gets the mutex
      and completes, and the connection's worker can end. */
  lemma {:induction false} IdleBlocksNothing(w: Whole, id: nat)
    requires w.play.call.Idle? && !SessionLocked(w)
    requires id in w.teardowns ==> w.teardowns[id].Waiting?
    ensures var v := Do(Do(Do(w, AskTeardown(id)), LockSession(id)), FinishTeardown(id));
            id in v.teardowns && v.teardowns[id].Done?
    ensures !T.Live(Do(w, TaskMove(T.Drop(w.connection))).tasks, w.connection)
  {
    hide T.Drained, P.Do;
  }

  // ----- the session's mutex

  /** At most one call is inside the session at a time, be it a `play` or a teardown. */
  ghost predicate OneHolder(w: Whole) {
    && (forall id <- w.teardowns :: w.teardowns[id].Holding? ==> w.play.call.Idle?)
    && (forall a <- w.teardowns, b <- w.teardowns :: w.teardowns[a].Holding? && w.teardowns[b].Holding? ==> a == b)
  }

  /** Only its first step begins a call. */
  lemma {:induction false} OnlySubscribeBegins(s: P.State, action: P.Action)
    requires s.call.Idle? && !action.Subscribe?
    ensures P.Do(s, action).call.Idle?
  {
  }

  /** Calls of a session exclude each other in every run. */
  lemma {:induction false} OneAtATime(w: Whole, moves: seq<Move>)
    requires OneHolder(w)
    ensures OneHolder(Perform(w, moves))
  {
    if moves != [] {
      var front, last := moves[..|moves| - 1], moves[|moves| - 1];
      OneAtATime(w, front);
      var v := Perform(w, front);
      hide P.Do, T.Step, Perform;
      if last.PlayMove? && v.play.call.Idle? && !last.action.Subscribe? {
        OnlySubscribeBegins(v.play, last.action);
      }
      assert OneHolder(Do(v, last));
      assert Perform(w, moves) == Do(v, last) by { PerformLast(w, moves); }
    }
  }

  /** A teardown that has completed stays completed. */
  lemma {:induction false} DoneForGood(w: Whole, moves: seq<Move>, id: nat)
    requires id in w.teardowns && w.teardowns[id].Done?
    ensures var v := Perform(w, moves); id in v.teardowns && v.teardowns[id].Done?
  {
    if moves != [] {
      DoneForGood(w, moves[..|moves| - 1], id);
      PerformLast(w, moves);
      hide P.Do, T.Step, Perform, SessionLocked;
    }
  }

  lemma {:induction false} PerformLast(w: Whole, moves: seq<Move>)
    requires moves != []
    ensures Perform(w, moves) == Do(Perform(w, moves[..|moves| - 1]), moves[|moves| - 1])
  {
    hide Do;
  }

  // ----- and it happens

  ghost function Fresh(first: Seq16, connection: nat): Whole {
    Whole(P.Init(first), T.INITIAL, connection, map[])
  }

  lemma {:induction false} PerformSnoc(w: Whole, moves: seq<Move>, m: Move)
    ensures Perform(w, moves + [m]) == Do(Perform(w, moves), m)
  {
    hide Do;
    assert (moves + [m])[..|moves|] == moves;
  }

  /** The connection's worker is spawned. */
  lemma {:induction false} SpawnMoves(w: Whole, id: nat) returns (moves: seq<Move>)
    requires id !in w.tasks.spawners && w.tasks.lock.None? && w.tasks.apex && T.Inv(w.tasks)
    ensures var v := Perform(w, moves); v.play == w.play && v.connection == w.connection && v.teardowns == w.teardowns
    ensures T.Inv(Perform(w, moves).tasks) && T.Live(Perform(w, moves).tasks, id)
  {
    hide T.Step, T.Inv;
    T.Manager.SpawnCallSteps(w.tasks, id);
    T.Manager.SpawnCallKeeps(w.tasks, id);
    PerformSnoc(w, [], TaskMove(T.Spawn(id)));
    moves := [] + [TaskMove(T.Spawn(id))];
    PerformSnoc(w, moves, TaskMove(T.Lock(id)));
    moves := moves + [TaskMove(T.Lock(id))];
    PerformSnoc(w, moves, TaskMove(T.Subscribe(id)));
    moves := moves + [TaskMove(T.Subscribe(id))];
    PerformSnoc(w, moves, TaskMove(T.Start(id)));
    moves := moves + [TaskMove(T.Start(id))];
  }

  /** With the mutex free, the moves of a `play` call are those of the protocol. */
  lemma {:induction false} PlayMoves(w: Whole, actions: seq<P.Action>) returns (moves: seq<Move>)
    requires w.teardowns == map[] && w.play.call.Idle?
    requires forall i :: 0 < i < |actions| ==> !actions[i].Subscribe?
    ensures Perform(w, moves) == w.(play := P.Perform(w.play, actions))
  {
    if actions == [] {
      moves := [];
    } else {
      var front, last := actions[..|actions| - 1], actions[|actions| - 1];
      var before := PlayMoves(w, front);
      PerformSnoc(w, before, PlayMove(last));
      moves := before + [PlayMove(last)];
      hide P.Do;
    }
  }

  /** A muxer failure is enough: a fresh system gets blocked. */
  lemma {:induction false} CanBlock(first: Seq16, connection: nat, frame: Frame, counter: Seq16) returns (moves: seq<Move>)
    ensures Blocked(Perform(Fresh(first, connection), moves))
  {
    var w := Fresh(first, connection);
    moves := SpawnMoves(w, connection);
    var actions := P.PlayCanHang(first, frame, counter);
    hide P.Perform, T.Inv, T.Live, Perform;
    var rest := PlayMoves(Perform(w, moves), actions);
    PerformConcat(w, moves, rest);
    moves := moves + rest;
  }

  lemma {:induction false} PerformConcat(w: Whole, a: seq<Move>, b: seq<Move>)
    ensures Perform(w, a + b) == Perform(Perform(w, a), b)
    decreases |b|
  {
    hide Do;
    if b == [] {
      assert a + b == a;
    } else {
      PerformConcat(w, a, b[..|b| - 1]);
      ConcatLast(a, b);
      PerformSnoc(w, a + b[..|b| - 1], b[|b| - 1]);
    }
  }
}
