/** The lossy broadcast channel between the camera and the sessions.

    The camera writes into a ring of `capacity` slots and never waits; each session reads with
    its own cursor and is told how many frames it lost when the ring has lapped it.  The
    abstract value of the ring is the log of every frame ever sent. */
module BroadcastRing {
  import opened Media

  /** The oldest position a ring still holds. */
  function Oldest(tail: nat, capacity: nat): nat {
    if tail <= capacity then 0 else tail - capacity
  }

  datatype Received = Empty | Behind(skipped: nat) | Got(frame: Frame)

  /** What a receiver with this cursor gets next, in terms of the log. */
  function Read(log: seq<Frame>, capacity: nat, cursor: nat): (r: Received)
    requires cursor <= |log|
    ensures r.Behind? ==> 0 < r.skipped && cursor + r.skipped == |log| - capacity
  {
    if cursor < Oldest(|log|, capacity) then Behind(Oldest(|log|, capacity) - cursor)
    else if cursor < |log| then Got(log[cursor])
    else Empty
  }

  function Consumed(r: Received): nat {
    match r
    case Empty => 0
    case Behind(skipped) => skipped
    case Got(_) => 1
  }

  /** Where the receiver's cursor is then. */
  function NextCursor(log: seq<Frame>, capacity: nat, cursor: nat): (next: nat)
    requires cursor <= |log|
    ensures cursor <= next <= |log|
  {
    cursor + Consumed(Read(log, capacity, cursor))
  }

  // ----- receiving over and over

  datatype RingOp = Sending(frame: Frame) | Receiving

  /** A receiver's account: the log, its cursor, the frames it got with their positions, and how many
      it was told it had lost. */
  datatype Reader = Reader(log: seq<Frame>, cursor: nat, frames: seq<Frame>, positions: seq<nat>, lost: nat)

  function ReaderStep(r: Reader, capacity: nat, op: RingOp): Reader {
    match op
    case Sending(frame) => r.(log := r.log + [frame])
    case Receiving =>
      if r.cursor > |r.log| then r
      else
        var next := NextCursor(r.log, capacity, r.cursor);
        match Read(r.log, capacity, r.cursor)
        case Empty => r.(cursor := next)
        case Behind(skipped) => r.(cursor := next, lost := r.lost + skipped)
        case Got(frame) => r.(cursor := next, frames := r.frames + [frame], positions := r.positions + [r.cursor])
  }

  function ReaderRun(r: Reader, capacity: nat, ops: seq<RingOp>): Reader {
    if ops == [] then r
    else ReaderStep(ReaderRun(r, capacity, ops[..|ops| - 1]), capacity, ops[|ops| - 1])
  }

  ghost predicate InOrder(positions: seq<nat>, from: nat, to: nat) {
    && (forall i :: 0 <= i < |positions| ==> from <= positions[i] < to)
    && (forall i, j :: 0 <= i < j < |positions| ==> positions[i] < positions[j])
  }

  /** Since a receiver stood at `from`: the frames it got are the log's at their positions, each
      position once and in order, and those it was told it lost make up the rest. */
  ghost predicate Accounted(r: Reader, from: nat) {
    && from <= r.cursor <= |r.log| && |r.frames| == |r.positions|
    && InOrder(r.positions, from, r.cursor)
    && (forall i :: 0 <= i < |r.frames| ==> r.frames[i] == r.log[r.positions[i]])
    && from + |r.positions| + r.lost == r.cursor
  }

  lemma {:induction false} AccountedStep(r: Reader, capacity: nat, op: RingOp, from: nat)
    requires Accounted(r, from)
    ensures Accounted(ReaderStep(r, capacity, op), from)
  {
    var t := ReaderStep(r, capacity, op);
    if op.Sending? {
      forall i | 0 <= i < |t.frames| ensures t.frames[i] == t.log[t.positions[i]] {
        assert r.frames[i] == r.log[r.positions[i]];
      }
    } else {
      assert r.log == t.log;
    }
  }

  /** Whatever is sent in between, a receiver gets every frame at most once, in order, and is told
      exactly how many it has lost. */
  lemma {:induction false} ReceivesInOrder(log: seq<Frame>, capacity: nat, from: nat, ops: seq<RingOp>)
    requires from <= |log|
    ensures Accounted(ReaderRun(Reader(log, from, [], [], 0), capacity, ops), from)
  {
    if ops == [] {
    } else {
      ReceivesInOrder(log, capacity, from, ops[..|ops| - 1]);
      hide ReaderStep, Accounted;
      AccountedStep(ReaderRun(Reader(log, from, [], [], 0), capacity, ops[..|ops| - 1]), capacity, ops[|ops| - 1], from);
    }
  }

  function Receives(n: nat): seq<RingOp> {
    seq(n, _ => Receiving)
  }

  /** It loses only what is gone, and gets all of the rest: with nothing sent meanwhile, as many
      receives as there are unread frames in the ring, and one more if the ring has lapped the
      receiver, yield exactly the frames from the oldest unread one on. */
  lemma {:induction false} CatchesUp(r: Reader, capacity: nat)
    requires r.cursor <= |r.log| && capacity > 0
    ensures r.cursor >= Oldest(|r.log|, capacity) ==> Yields(r, r.cursor, ReaderRun(r, capacity, Receives(|r.log| - r.cursor)))
    ensures r.cursor < Oldest(|r.log|, capacity) ==>
              var oldest := Oldest(|r.log|, capacity);
              Yields(r, oldest, ReaderRun(r, capacity, Receives(|r.log| - oldest + 1)))
  {
    var length := |r.log|;
    if r.cursor < Oldest(length, capacity) {
      ToldOfLag(r, capacity);
      var next := ReaderStep(r, capacity, Receiving);
      hide ReaderStep, ReaderRun, Receives, Yields;
      YieldsRest(next, capacity);
      ReaderCons(r, capacity, length - next.cursor);
      YieldsToo(r, next, ReaderRun(next, capacity, Receives(length - next.cursor)));
    } else {
      hide ReaderStep, ReaderRun, Receives, Yields;
      YieldsRest(r, capacity);
    }
  }

  /** `t` has got the frames from `oldest` on, and lost those before. */
  predicate Yields(r: Reader, oldest: nat, t: Reader)
    requires r.cursor <= oldest <= |r.log|
  {
    t.log == r.log && t.frames == r.frames + r.log[oldest..] && t.lost == r.lost + oldest - r.cursor && t.cursor == |r.log|
  }

  lemma {:induction false} YieldsRest(r: Reader, capacity: nat)
    requires Oldest(|r.log|, capacity) <= r.cursor <= |r.log|
    ensures Yields(r, r.cursor, ReaderRun(r, capacity, Receives(|r.log| - r.cursor)))
  {
    hide ReaderStep, ReaderRun, Receives;
    ReadsOn(r, capacity, |r.log| - r.cursor);
    assert r.log[r.cursor..|r.log|] == r.log[r.cursor..];
  }

  lemma {:induction false} YieldsToo(r: Reader, next: Reader, t: Reader)
    requires r.cursor <= next.cursor <= |r.log|
    requires next == r.(cursor := next.cursor, lost := r.lost + next.cursor - r.cursor) && Yields(next, next.cursor, t)
    ensures Yields(r, next.cursor, t)
  {
  }

  lemma {:induction false} ToldOfLag(r: Reader, capacity: nat)
    requires r.cursor < Oldest(|r.log|, capacity)
    ensures var oldest := Oldest(|r.log|, capacity);
            ReaderStep(r, capacity, Receiving) == r.(cursor := oldest, lost := r.lost + oldest - r.cursor)
  {
  }

  lemma {:induction false} ReaderCons(r: Reader, capacity: nat, n: nat)
    ensures ReaderRun(r, capacity, Receives(n + 1)) == ReaderRun(ReaderStep(r, capacity, Receiving), capacity, Receives(n))
  {
    hide ReaderStep;
    assert Receives(n + 1)[..n] == Receives(n);
    if n > 0 {
      ReaderCons(r, capacity, n - 1);
      assert Receives(n)[..n - 1] == Receives(n - 1);
    } else {
      assert ReaderRun(r, capacity, Receives(0)) == r;
    }
  }

  /** Not overtaken, `n` receives yield the next `n` frames. */
  lemma {:induction false} ReadsOn(r: Reader, capacity: nat, n: nat)
    requires Oldest(|r.log|, capacity) <= r.cursor && r.cursor + n <= |r.log|
    ensures var t := ReaderRun(r, capacity, Receives(n));
            && t.log == r.log && t.frames == r.frames + r.log[r.cursor..r.cursor + n]
            && t.lost == r.lost && t.cursor == r.cursor + n
  {
    if n == 0 {
      assert r.frames + r.log[r.cursor..r.cursor] == r.frames;
    } else {
      ReadsOn(r, capacity, n - 1);
      assert Receives(n)[..n - 1] == Receives(n - 1);
      var t := ReaderRun(r, capacity, Receives(n - 1));
      GetsNext(t, capacity);
      hide ReaderStep, Receives;
      assert r.log[r.cursor..r.cursor + n] == r.log[r.cursor..r.cursor + n - 1] + [r.log[r.cursor + n - 1]];
    }
  }

  lemma {:induction false} GetsNext(r: Reader, capacity: nat)
    requires Oldest(|r.log|, capacity) <= r.cursor < |r.log|
    ensures ReaderStep(r, capacity, Receiving)
            == r.(cursor := r.cursor + 1, frames := r.frames + [r.log[r.cursor]], positions := r.positions + [r.cursor])
  {
  }

  // ----- the ring

  /** The slot of a position, counted off lap by lap: the position modulo the capacity. */
  function Place(position: nat, capacity: nat): (k: nat)
    requires capacity > 0
    ensures k < capacity
  {
    if position < capacity then position else Place(position - capacity, capacity)
  }

  lemma {:induction false} Multiple(x: int, d: int)
    requires d > 0
    ensures x == 0 || x * d >= d || x * d <= -d
  {
    if x >= 1 {
      assert (x - 1) * d >= 0;
    } else if x <= -1 {
      assert (-1 - x) * d >= 0;
    }
  }

  lemma {:induction false} LapRemainder(position: nat, capacity: nat)
    requires 0 < capacity <= position
    ensures (position - capacity) % capacity == position % capacity
  {
    var n := position - capacity;
    var q, r, q', r' := position / capacity, position % capacity, n / capacity, n % capacity;
    assert position == q * capacity + r && n == q' * capacity + r';
    assert (q - q' - 1) * capacity == r' - r;
    Multiple(q - q' - 1, capacity);
  }

  lemma {:induction false} PlaceIsRemainder(position: nat, capacity: nat)
    requires capacity > 0
    ensures Place(position, capacity) == position % capacity
  {
    if position >= capacity {
      PlaceIsRemainder(position - capacity, capacity);
      LapRemainder(position, capacity);
    }
  }

  /** Two positions less than a lap apart never share a slot. */
  lemma {:induction false} SameLap(i: nat, j: nat, capacity: nat)
    requires 0 < capacity && i < j < i + capacity
    ensures Place(i, capacity) != Place(j, capacity)
  {
    if i >= capacity {
      SameLap(i - capacity, j - capacity, capacity);
    }
  }

  datatype Slot = Vacant | Holds(position: nat, frame: Frame)

  class Ring {
    const slots: array<Slot>
    var tail: nat
    ghost var log: seq<Frame>

    ghost predicate Valid()
      reads this, slots
    {
      && slots.Length > 0
      && tail == |log|
      && (forall i :: Oldest(tail, slots.Length) <= i < tail ==> slots[Place(i, slots.Length)] == Holds(i, log[i]))
      && (forall k :: 0 <= k < slots.Length && slots[k].Holds? ==>
            Oldest(tail, slots.Length) <= slots[k].position < tail && Place(slots[k].position, slots.Length) == k)
    }

    constructor (capacity: nat)
      requires capacity > 0
      ensures Valid() && fresh(slots) && slots.Length == capacity && log == []
    {
      slots := new Slot[capacity](_ => Vacant);
      tail, log := 0, [];
    }

    /** `packet_tx.send`: always succeeds at once, overwriting the oldest frame if need be. */
    method Send(frame: Frame)
      requires Valid()
      modifies this, slots
      ensures Valid() && log == old(log) + [frame]
    {
      var n := slots.Length;
      forall i | Oldest(tail + 1, n) <= i < tail ensures Place(i, n) != Place(tail, n) {
        SameLap(i, tail, n);
      }
      slots[Place(tail, n)] := Holds(tail, frame);
      log := log + [frame];
      tail := tail + 1;
    }

    /** `packet_rx.recv` for a receiver at `cursor`. */
    method Recv(cursor: nat) returns (r: Received, next: nat)
      requires Valid() && cursor <= tail
      ensures r == Read(log, slots.Length, cursor)
      ensures next == NextCursor(log, slots.Length, cursor) <= tail
      ensures r.Got? ==> next == cursor + 1 && r.frame == log[cursor] && Oldest(tail, slots.Length) <= cursor
      ensures r.Behind? ==> next == cursor + r.skipped == Oldest(tail, slots.Length) > cursor
      ensures r.Empty? ==> next == cursor == tail
    {
      var n := slots.Length;
      var slot := slots[Place(cursor, n)];
      if slot.Holds? && slot.position == cursor {
        return Got(slot.frame), cursor + 1;
      }
      if cursor == tail {
        return Empty, cursor;
      }
      return Behind(tail - n - cursor), tail - n;
    }
  }
}
