/** The connection worker's batching loop as the source writes it, proved to be one run of
    `ConnStep` while sessions keep feeding the queue. */
module ConnectionWorker {
  import opened StreamSession
  import opened Connection

  datatype Op = Works(event: ConnEvent) | Enqueues(message: Message)

  function Apply(c: Conn, op: Op): Conn {
    match op
    case Works(event) => ConnStep(c, event)
    case Enqueues(message) => Accept(c, message)
  }

  function Perform(c: Conn, ops: seq<Op>): Conn {
    if ops == [] then c
    else Apply(Perform(c, ops[..|ops| - 1]), ops[|ops| - 1])
  }

  lemma {:induction false} PerformSnoc(c: Conn, ops: seq<Op>, op: Op)
    ensures Perform(c, ops + [op]) == Apply(Perform(c, ops), op)
  {
    assert (ops + [op])[..|ops|] == ops;
  }

  lemma {:induction false} PerformKeeps(c: Conn, ops: seq<Op>)
    requires ConnInv(c)
    ensures ConnInv(Perform(c, ops)) && c.accepted <= Perform(c, ops).accepted
  {
    if ops == [] {
    } else {
      var before := Perform(c, ops[..|ops| - 1]);
      PerformKeeps(c, ops[..|ops| - 1]);
      match ops[|ops| - 1]
      case Works(event) => ConnStepKeeps(before, event);
      case Enqueues(message) => AcceptKeeps(before, message);
    }
  }

  function PlainRun(p: Plain, events: seq<PlainEvent>): Plain {
    if events == [] then p
    else PlainStep(PlainRun(p, events[..|events| - 1]), events[|events| - 1])
  }

  function PlainOf(c: Conn, op: Op): PlainEvent {
    match op
    case Works(event) => PlainEventOf(c, event)
    case Enqueues(message) => if c.open then Arrive(message) else Stay
  }

  function PlainEvents(c: Conn, ops: seq<Op>): seq<PlainEvent> {
    if ops == [] then []
    else
      var before := ops[..|ops| - 1];
      PlainEvents(c, before) + [PlainOf(Perform(c, before), ops[|ops| - 1])]
  }

  /** Batching refines sending one message at a time, over whole runs: whatever sessions and
      worker do in whatever order, the connection is the reference machine run on the same
      arrivals, and between batches what is on the wire is what the reference has sent. */
  lemma {:induction false} RunRefines(ops: seq<Op>)
    ensures var c := Perform(NEW_CONN, ops);
            var p := PlainRun(Plain([], [], 0), PlainEvents(NEW_CONN, ops));
            Abstract(c) == p && (c.worker.Selecting? ==> Items(c.wire) == p.sent)
  {
    Fresh();
    hide Apply, PlainOf, PlainStep, Abstract, ConnInv, Items;
    PerformKeeps(NEW_CONN, ops);
    SelectingSent(Perform(NEW_CONN, ops));
    if ops == [] {
    } else {
      var front := ops[..|ops| - 1];
      RunRefines(front);
      PerformKeeps(NEW_CONN, front);
      PlainSnoc(PlainEvents(NEW_CONN, front), PlainOf(Perform(NEW_CONN, front), ops[|ops| - 1]));
      OpRefines(Perform(NEW_CONN, front), ops[|ops| - 1]);
      hide PlainRun;
    }
  }

  lemma {:induction false} Fresh()
    ensures ConnInv(NEW_CONN) && Abstract(NEW_CONN) == Plain([], [], 0)
  {
    assert Items([]) + ItemsOf([]) == [];
  }

  lemma {:induction false} PlainSnoc(events: seq<PlainEvent>, e: PlainEvent)
    ensures PlainRun(Plain([], [], 0), events + [e]) == PlainStep(PlainRun(Plain([], [], 0), events), e)
  {
    assert (events + [e])[..|events|] == events;
  }

  lemma {:induction false} OpRefines(c: Conn, op: Op)
    requires ConnInv(c)
    ensures Abstract(Apply(c, op)) == PlainStep(Abstract(c), PlainOf(c, op))
  {
    match op
    case Works(event) => BatchingRefines(c, event);
    case Enqueues(message) => AcceptRefines(c, message);
  }

  lemma {:induction false} SelectingSent(c: Conn)
    requires ConnInv(c)
    ensures c.worker.Selecting? ==> Items(c.wire) == Abstract(c).sent
  {
    if c.worker.Selecting? {
      assert ItemsOf(c.inflight) == [];
      assert Items(c.wire) + [] == Items(c.wire);
    }
  }

  datatype Failure = ConnectionReset | BrokenPipe | OtherError | TimedOut

  /** How writing a batch goes: well, or it fails while feeding message `at` of the batch (or at
      the flush, if the batch ends before that), after `written` messages got out. */
  datatype WriteResult = Written | Fails(at: nat, written: nat, failure: Failure)

  class Writer {
    var worker: Worker
    var open: bool
    var queue: seq<Message>
    var inflight: seq<Message>
    var wire: seq<Burst>
    var requests: nat
    var disconnected: bool
    ghost var accepted: seq<Message>

    ghost function View(): Conn
      reads this
    {
      Conn(worker, open, queue, inflight, wire, requests, accepted)
    }

    constructor ()
      ensures View() == NEW_CONN && !disconnected
    {
      worker, open, requests, disconnected := Selecting, true, 0, false;
      queue, inflight, wire, accepted := [], [], [], [];
    }

    /** A session's `try_send`. */
    method TrySend(m: Message) returns (result: SendResult)
      modifies this`queue, this`accepted
      ensures View() == Accept(old(View()), m)
      ensures result == Connection.TrySend(old(View()))
      ensures result.Closed? <==> !open
      ensures result.Full? <==> open && |old(queue)| >= 1024
      ensures queue == if result.Sent? then old(queue) + [m] else old(queue)
    {
      if !open {
        return Closed;
      }
      if |queue| >= MEDIA_QUEUE_LEN {
        return Full;
      }
      queue := queue + [m];
      accepted := accepted + [m];
      return Sent;
    }

    /** Sessions push `arrivals` between two receives of the worker. */
    method Interfere(arrivals: seq<Message>, ghost start: Conn, ghost ops: seq<Op>) returns (ghost ops': seq<Op>)
      requires View() == Perform(start, ops)
      modifies this`queue, this`accepted
      ensures View() == Perform(start, ops')
    {
      ops' := ops;
      for i := 0 to |arrivals|
        invariant View() == Perform(start, ops')
      {
        PerformSnoc(start, ops', Enqueues(arrivals[i]));
        var _ := TrySend(arrivals[i]);
        ops' := ops' + [Enqueues(arrivals[i])];
      }
    }

    /** `response_rx.recv()` with a message waiting; it is fed to the socket. */
    method Receive()
      requires worker.Selecting? && queue != []
      modifies this`worker, this`queue, this`inflight
      ensures View() == ConnStep(old(View()), Take)
      ensures worker.Batching? && |inflight| == 1
    {
      worker, inflight, queue := Batching, [queue[0]], queue[1..];
    }

    /** `response_rx.try_recv()`, and feeding what it yields. */
    method TryReceive() returns (got: bool)
      requires worker.Batching? && |inflight| < MAX_BATCH
      modifies this`queue, this`inflight
      ensures View() == ConnStep(old(View()), TakeMore)
      ensures got == (old(queue) != [])
      ensures |inflight| == old(|inflight|) + if got then 1 else 0
    {
      got := queue != [];
      if got {
        inflight, queue := inflight + [queue[0]], queue[1..];
      }
    }

    /** Feed the socket with what is waiting, up to MAX_BATCH messages, until a feed fails.
        `arrivals[i]` is what sessions push just before receive attempt `i`. */
    method Collect(arrivals: seq<seq<Message>>, result: WriteResult) returns (failed: bool, ghost ops: seq<Op>)
      requires worker.Selecting? && queue != [] && |arrivals| == MAX_BATCH
      modifies this`worker, this`queue, this`inflight, this`accepted
      ensures View() == Perform(old(View()), ops)
      ensures worker.Batching? && 1 <= |inflight| <= MAX_BATCH
      ensures failed <==> result.Fails? && result.at + 1 == |inflight|
      ensures !failed && |inflight| < 64 ==> queue == []
    {
      ghost var start := View();
      ops := [];
      PerformSnoc(start, ops, Works(Take));
      Receive();
      ops := ops + [Works(Take)];
      failed := result.Fails? && result.at == 0;
      while !failed && |inflight| < MAX_BATCH
        invariant 1 <= |inflight| <= MAX_BATCH && worker.Batching?
        invariant failed <==> result.Fails? && result.at + 1 == |inflight|
        invariant View() == Perform(start, ops)
        decreases MAX_BATCH - |inflight|, !failed
      {
        ops := Interfere(arrivals[|inflight|], start, ops);
        PerformSnoc(start, ops, Works(TakeMore));
        var got := TryReceive();
        ops := ops + [Works(TakeMore)];
        if !got {
          break;
        }
        failed := result.Fails? && result.at + 1 == |inflight|;
      }
    }

    /** End the connection: `written` messages of the batch got out. */
    method Abandon(written: nat, failure: Failure) returns (ghost ending: ConnEvent)
      requires worker.Batching? || worker.Flushing?
      modifies this`worker, this`inflight, this`wire, this`disconnected
      ensures ending.FailBatch? && View() == ConnStep(old(View()), ending)
      ensures worker.Ended? && old(wire) <= wire
      ensures disconnected == (old(disconnected) || !failure.OtherError?)
    {
      var k := if written < |inflight| then written else |inflight|;
      ending := FailBatch(k);
      worker := Ended;
      if k > 0 {
        wire := wire + [Batch(inflight[..k])];
      }
      inflight := inflight[k..];
      disconnected := disconnected || !failure.OtherError?;
    }

    /** The batch is fed: flush it, or end the connection. */
    method Write(result: WriteResult) returns (ghost ending: ConnEvent)
      requires worker.Flushing?
      modifies this`worker, this`inflight, this`wire, this`disconnected
      ensures View() == ConnStep(old(View()), ending)
      ensures result.Written? ==> worker.Selecting? && wire == old(wire) + [Batch(old(inflight))]
      ensures result.Fails? ==> worker.Ended? && old(wire) <= wire
      ensures disconnected == (old(disconnected) || (result.Fails? && !result.failure.OtherError?))
    {
      if result.Written? {
        ending := Flush;
        worker, inflight, wire := Selecting, [], wire + [Batch(inflight)];
      } else {
        ending := Abandon(result.written, result.failure);
      }
    }

    /** One turn of the `response_rx.recv()` arm: one batch of 1 to 64 messages, one flush, while
        sessions go on pushing: `arrivals` between the receives, `meanwhile` during the flush.
        `collecting` leads to the moment the batch is complete.  Only then, and only if no feed
        failed, a short batch means an empty queue.  By `ConnInv` the batch is exactly the next
        messages in the order the queue accepted them. */
    method SendBatch(arrivals: seq<seq<Message>>, meanwhile: seq<Message>, result: WriteResult)
      returns (batch: seq<Message>, ghost collecting: seq<Op>, ghost rest: seq<Op>)
      requires ConnInv(View()) && worker.Selecting? && queue != [] && |arrivals| == MAX_BATCH
      modifies this
      ensures var complete := Perform(old(View()), collecting);
              && complete.inflight == batch && 1 <= |batch| <= 64
              && (|batch| < 64 && !(result.Fails? && result.at + 1 == |batch|) ==> complete.queue == [])
      ensures View() == Perform(Perform(old(View()), collecting), rest)
      ensures ConnInv(View()) && old(accepted) <= accepted
      ensures result.Written? ==> worker.Selecting? && wire == old(wire) + [Batch(batch)]
      ensures result.Fails? ==> worker.Ended? && old(wire) <= wire
      ensures disconnected == (old(disconnected) || (result.Fails? && !result.failure.OtherError?))
    {
      var failed;
      failed, collecting := Collect(arrivals, result);
      batch := inflight;
      PerformKeeps(old(View()), collecting);
      ghost var complete := View();
      if failed {
        ghost var ending := Abandon(result.written, result.failure);
        PerformSnoc(complete, [], Works(ending));
        rest := [] + [Works(ending)];
      } else {
        rest := Deliver(meanwhile, result);
      }
      PerformKeeps(complete, rest);
    }

    /** The flush of a complete batch, with sessions pushing `meanwhile`. */
    method Deliver(meanwhile: seq<Message>, result: WriteResult) returns (ghost ops: seq<Op>)
      requires worker.Batching? && (|inflight| == MAX_BATCH || queue == [])
      modifies this
      ensures View() == Perform(old(View()), ops)
      ensures result.Written? ==> worker.Selecting? && wire == old(wire) + [Batch(old(inflight))]
      ensures result.Fails? ==> worker.Ended? && old(wire) <= wire
      ensures disconnected == (old(disconnected) || (result.Fails? && !result.failure.OtherError?))
    {
      ghost var start := View();
      PerformSnoc(start, [], Works(CloseBatch));
      worker := Flushing;
      ops := Interfere(meanwhile, start, [] + [Works(CloseBatch)]);
      ghost var ending := Write(result);
      PerformSnoc(start, ops, Works(ending));
      ops := ops + [Works(ending)];
    }

    /** The `inbound.next()` arm for one RTSP request: run its handler, send the response, while
        sessions push `meanwhile`.  Only a connection reset counts as a client disconnect here. */
    method Answer(meanwhile: seq<Message>, result: WriteResult) returns (ghost ops: seq<Op>)
      requires ConnInv(View()) && worker.Selecting?
      modifies this
      ensures View() == Perform(old(View()), ops)
      ensures ConnInv(View()) && old(accepted) <= accepted
      ensures result.Written? ==> worker.Selecting? && wire == old(wire) + [Response(old(requests))]
      ensures result.Fails? ==> worker.Ended? && wire == old(wire)
      ensures disconnected == (old(disconnected) || (result.Fails? && result.failure.ConnectionReset?))
    {
      ops := Handle(meanwhile, result);
      PerformKeeps(old(View()), ops);
    }

    method Handle(meanwhile: seq<Message>, result: WriteResult) returns (ghost ops: seq<Op>)
      requires worker.Selecting?
      modifies this
      ensures View() == Perform(old(View()), ops)
      ensures result.Written? ==> worker.Selecting? && wire == old(wire) + [Response(old(requests))]
      ensures result.Fails? ==> worker.Ended? && wire == old(wire)
      ensures disconnected == (old(disconnected) || (result.Fails? && result.failure.ConnectionReset?))
    {
      ghost var start := View();
      PerformSnoc(start, [], Works(Request));
      var request := requests;
      worker, requests := Handling(request), requests + 1;
      ops := Interfere(meanwhile, start, [] + [Works(Request)]);
      ghost var ending := if result.Written? then Respond else FailResponse;
      PerformSnoc(start, ops, Works(ending));
      ops := ops + [Works(ending)];
      if result.Written? {
        worker, wire := Selecting, wire + [Response(request)];
      } else {
        worker := Ended;
        disconnected := disconnected || result.failure.ConnectionReset?;
      }
    }
  }
}
