/** One client connection: the bounded media queue its sessions feed, and the worker that
    drains it in batches and answers requests in between (`Connection::run`).

    `Conn` is the connection's state between two atomic actions and `ConnStep` one action of
    the worker.  `Accept` is a session's `try_send`, which may come between any two of them. */
module Connection {
  import opened Media
  import opened StreamSession

  const MEDIA_QUEUE_LEN: nat := 1024
  const MAX_BATCH: nat := 64

  /** A session, by the connection it was set up on. */
  datatype SessionKey = SessionKey(conn: nat, serial: nat)

  /** One interleaved message: message `index` of source frame `frame`. */
  datatype Message = Message(session: SessionKey, frame: nat, index: nat, payload: Payload)

  /** What one flush puts on the wire. */
  datatype Burst = Batch(media: seq<Message>) | Response(request: nat)

  datatype Worker = Selecting | Batching | Flushing | Handling(request: nat) | Ended

  datatype Conn = Conn(
    worker: Worker,
    open: bool,                  // the receiving end of the queue still exists
    queue: seq<Message>,
    inflight: seq<Message>,      // fed to the socket, not flushed
    wire: seq<Burst>,
    requests: nat,               // requests read so far
    accepted: seq<Message>)      // history: everything the queue ever accepted

  const NEW_CONN := Conn(Selecting, true, [], [], [], 0, [])

  datatype ConnEvent =
    | Take                       // `response_rx.recv()` yields a message: a batch starts
    | TakeMore                   // `response_rx.try_recv()` yields another one
    | CloseBatch                 // the batch is full or nothing is waiting
    | Flush
    | FailBatch(written: nat)    // write error or timeout; `written` messages got out
    | Request                    // a request arrives and its handler runs
    | Respond                    // the handler's response is written and flushed
    | FailResponse
    | End                        // end of stream, read error, or stop signal
    | Release                    // the worker's end of the queue is dropped

  function TrySend(c: Conn): SendResult {
    if !c.open then Closed
    else if |c.queue| >= MEDIA_QUEUE_LEN then Full
    else Sent
  }

  function Accept(c: Conn, m: Message): Conn {
    if TrySend(c).Sent? then c.(queue := c.queue + [m], accepted := c.accepted + [m]) else c
  }

  function ConnStep(c: Conn, e: ConnEvent): Conn {
    match e
    case Take =>
      if c.worker.Selecting? && c.queue != []
      then c.(worker := Batching, inflight := [c.queue[0]], queue := c.queue[1..]) else c
    case TakeMore =>
      if c.worker.Batching? && |c.inflight| < MAX_BATCH && c.queue != []
      then c.(inflight := c.inflight + [c.queue[0]], queue := c.queue[1..]) else c
    case CloseBatch =>
      if c.worker.Batching? && (|c.inflight| == MAX_BATCH || c.queue == []) then c.(worker := Flushing) else c
    case Flush =>
      if c.worker.Flushing?
      then c.(worker := Selecting, inflight := [], wire := c.wire + [Batch(c.inflight)]) else c
    case FailBatch(written) =>
      if (c.worker.Batching? || c.worker.Flushing?) && written <= |c.inflight|
      then c.(worker := Ended, inflight := c.inflight[written..],
              wire := if written == 0 then c.wire else c.wire + [Batch(c.inflight[..written])]) else c
    case Request =>
      if c.worker.Selecting? then c.(worker := Handling(c.requests), requests := c.requests + 1) else c
    case Respond =>
      if c.worker.Handling? then c.(worker := Selecting, wire := c.wire + [Response(c.worker.request)]) else c
    case FailResponse =>
      if c.worker.Handling? then c.(worker := Ended) else c
    case End =>
      if c.worker.Selecting? then c.(worker := Ended) else c
    case Release =>
      if c.worker.Ended? then c.(open := false) else c
  }

  // ----- what every action keeps

  function Carried(wire: seq<Burst>): seq<Message> {
    if wire == [] then []
    else Carried(wire[..|wire| - 1]) + match wire[|wire| - 1] case Batch(media) => media case Response(_) => []
  }

  function Responses(wire: seq<Burst>): seq<nat> {
    if wire == [] then []
    else Responses(wire[..|wire| - 1]) + match wire[|wire| - 1] case Batch(_) => [] case Response(request) => [request]
  }

  /** How many requests have been answered. */
  predicate Answered(c: Conn, n: nat) {
    if c.worker.Handling? then c.worker.request == n && c.requests == n + 1
    else if c.worker.Ended? then n == c.requests || n + 1 == c.requests
    else n == c.requests
  }

  ghost predicate WireInv(wire: seq<Burst>) {
    && (forall i :: 0 <= i < |wire| && wire[i].Batch? ==> 1 <= |wire[i].media| <= MAX_BATCH)
    && (forall i :: 0 <= i < |Responses(wire)| ==> Responses(wire)[i] == i)
  }

  /** Memory is bounded, nothing is lost, reordered or duplicated between queue and wire, every
      flush carries 1 to 64 messages or one response, and responses come in request order. */
  ghost predicate ConnInv(c: Conn) {
    && |c.queue| <= MEDIA_QUEUE_LEN && |c.inflight| <= MAX_BATCH
    && (c.open || c.worker.Ended?)
    && (c.worker.Batching? || c.worker.Flushing? ==> c.inflight != [])
    && (c.worker.Selecting? || c.worker.Handling? ==> c.inflight == [])
    && Carried(c.wire) + c.inflight + c.queue == c.accepted
    && WireInv(c.wire)
    && Answered(c, |Responses(c.wire)|)
  }

  lemma {:induction false} AcceptKeeps(c: Conn, m: Message)
    requires ConnInv(c)
    ensures ConnInv(Accept(c, m))
  {
  }

  lemma {:induction false} BurstAppended(wire: seq<Burst>, b: Burst)
    ensures Carried(wire + [b]) == Carried(wire) + if b.Batch? then b.media else []
    ensures Responses(wire + [b]) == Responses(wire) + if b.Batch? then [] else [b.request]
  {
    assert (wire + [b])[..|wire|] == wire;
  }

  lemma {:induction false} WireExtended(wire: seq<Burst>, b: Burst)
    requires WireInv(wire)
    requires if b.Batch? then 1 <= |b.media| <= MAX_BATCH else b.request == |Responses(wire)|
    ensures WireInv(wire + [b])
  {
    BurstAppended(wire, b);
  }

  lemma {:induction false} TakenInOrder(c: Conn, e: ConnEvent)
    requires ConnInv(c) && (e.Take? || e.TakeMore?)
    ensures ConnInv(ConnStep(c, e))
  {
    if ConnStep(c, e) != c {
      assert c.queue == [c.queue[0]] + c.queue[1..];
    }
  }

  lemma {:induction false} BatchWritten(c: Conn, e: ConnEvent)
    requires ConnInv(c) && (e.Flush? || e.FailBatch?)
    ensures ConnInv(ConnStep(c, e))
  {
    var d := ConnStep(c, e);
    if d != c {
      var n := if e.Flush? then |c.inflight| else e.written;
      assert c.inflight == c.inflight[..n] + c.inflight[n..];
      assert c.inflight[..|c.inflight|] == c.inflight;
      if n > 0 {
        BurstAppended(c.wire, Batch(c.inflight[..n]));
        WireExtended(c.wire, Batch(c.inflight[..n]));
      }
      assert Carried(d.wire) + d.inflight == Carried(c.wire) + c.inflight;
    }
  }

  lemma {:induction false} ConnStepKeeps(c: Conn, e: ConnEvent)
    requires ConnInv(c)
    ensures ConnInv(ConnStep(c, e))
    ensures ConnStep(c, e).accepted == c.accepted
  {
    if e.Take? || e.TakeMore? {
      TakenInOrder(c, e);
    } else if e.Flush? || e.FailBatch? {
      BatchWritten(c, e);
    } else if e.Respond? && c.worker.Handling? {
      BurstAppended(c.wire, Response(c.worker.request));
      WireExtended(c.wire, Response(c.worker.request));
    }
  }

  function ConnRun(c: Conn, events: seq<ConnEvent>): Conn
    decreases events
  {
    if events == [] then c
    else ConnRun(ConnStep(c, events[0]), events[1..])
  }

  /** Nothing accepted gets stuck: a worker whose writes succeed puts all of it on the wire. */
  lemma {:induction false} Drains(c: Conn) returns (events: seq<ConnEvent>)
    requires ConnInv(c) && !c.worker.Ended?
    ensures Carried(ConnRun(c, events).wire) == c.accepted == ConnRun(c, events).accepted
    decreases |c.queue|, c.worker.Handling?, c.worker.Batching?, c.worker.Flushing?
  {
    if c.worker.Selecting? && c.queue == [] {
      events := [];
    } else {
      var e := match c.worker
               case Selecting => Take
               case Batching => if |c.inflight| < MAX_BATCH && c.queue != [] then TakeMore else CloseBatch
               case Flushing => Flush
               case _ => Respond;
      ConnStepKeeps(c, e);
      var rest := Drains(ConnStep(c, e));
      events := [e] + rest;
    }
  }

  // ----- the end of a connection

  /** What the worker does to end from where it is: a failed write or response, or the end of the
      stream; and then its end of the queue is dropped. */
  function Ending(c: Conn): seq<ConnEvent> {
    match c.worker
    case Selecting => [End, Release]
    case Handling(_) => [FailResponse, Release]
    case Batching => [FailBatch(0), Release]
    case Flushing => [FailBatch(0), Release]
    case Ended => [Release]
  }

  /** Wherever a worker is, it can end, and then the queue is closed: sessions get Closed. */
  lemma {:induction false} EndCloses(c: Conn)
    ensures var d := ConnRun(c, Ending(c)); TrySend(d) == Closed && d.worker.Ended? && d.accepted == c.accepted
  {
    assert Ending(c)[1..] == if c.worker.Ended? then [] else [Release];
    assert [Release][1..] == [];
  }

  /** Whatever the worker does then, and whatever sessions try: closed stays closed, no message is
      accepted and none sent. */
  lemma {:induction false} ClosedForGood(c: Conn, e: ConnEvent, m: Message)
    requires c.worker.Ended? && !c.open
    ensures TrySend(c) == Closed && Accept(c, m) == c && ConnStep(c, e) == c
  {
  }

  /** A batch goes to the socket only when it is full or nothing is waiting. */
  lemma {:induction false} BatchComplete(c: Conn, e: ConnEvent)
    requires c.worker.Batching? && ConnStep(c, e).worker.Flushing?
    ensures |c.inflight| == MAX_BATCH || c.queue == []
  {
  }

  // ----- batching refines sending one message at a time

  datatype Item = Sends(message: Message) | Answers(request: nat)

  /** The reference: a queue whose head goes straight out, with answers in between. */
  datatype Plain = Plain(queue: seq<Message>, sent: seq<Item>, answered: nat)

  datatype PlainEvent = SendOne | Answer | Arrive(message: Message) | Stay

  function PlainStep(p: Plain, e: PlainEvent): Plain {
    match e
    case SendOne => if p.queue == [] then p else p.(queue := p.queue[1..], sent := p.sent + [Sends(p.queue[0])])
    case Answer => p.(sent := p.sent + [Answers(p.answered)], answered := p.answered + 1)
    case Arrive(m) => if |p.queue| < MEDIA_QUEUE_LEN then p.(queue := p.queue + [m]) else p
    case Stay => p
  }

  function ItemsOf(media: seq<Message>): seq<Item> {
    seq(|media|, i requires 0 <= i < |media| => Sends(media[i]))
  }

  function Items(wire: seq<Burst>): seq<Item> {
    if wire == [] then []
    else Items(wire[..|wire| - 1]) + match wire[|wire| - 1] case Batch(media) => ItemsOf(media) case Response(r) => [Answers(r)]
  }

  function Abstract(c: Conn): Plain {
    Plain(c.queue, Items(c.wire) + ItemsOf(c.inflight), |Responses(c.wire)|)
  }

  function PlainEventOf(c: Conn, e: ConnEvent): PlainEvent {
    if ConnStep(c, e) == c then Stay
    else if e.Take? || e.TakeMore? then SendOne
    else if e.Respond? then Answer
    else Stay
  }

  lemma {:induction false} ItemsAppended(wire: seq<Burst>, b: Burst)
    ensures Items(wire + [b]) == Items(wire) + if b.Batch? then ItemsOf(b.media) else [Answers(b.request)]
  {
    assert (wire + [b])[..|wire|] == wire;
  }

  lemma {:induction false} TakingRefines(c: Conn, e: ConnEvent)
    requires ConnInv(c) && (e.Take? || e.TakeMore?)
    ensures Abstract(ConnStep(c, e)) == PlainStep(Abstract(c), PlainEventOf(c, e))
  {
    var d := ConnStep(c, e);
    if d != c {
      assert ItemsOf(d.inflight) == ItemsOf(c.inflight) + [Sends(c.queue[0])];
    }
  }

  lemma {:induction false} WritingRefines(c: Conn, e: ConnEvent)
    requires ConnInv(c) && (e.Flush? || e.FailBatch?)
    ensures Abstract(ConnStep(c, e)) == PlainStep(Abstract(c), PlainEventOf(c, e))
  {
    hide ConnInv, Carried, Responses, Items;
    var d := ConnStep(c, e);
    if d != c {
      var n := if e.Flush? then |c.inflight| else e.written;
      assert c.inflight[..|c.inflight|] == c.inflight;
      ItemsSplit(c.inflight, n);
      ItemsAppended(c.wire, Batch(c.inflight[..n]));
      BurstAppended(c.wire, Batch(c.inflight[..n]));
      assert Items(d.wire) == Items(c.wire) + ItemsOf(c.inflight[..n]);
    }
  }

  lemma {:induction false} ItemsSplit(media: seq<Message>, n: nat)
    requires n <= |media|
    ensures ItemsOf(media) == ItemsOf(media[..n]) + ItemsOf(media[n..])
  {
  }

  /** Every action of the batching worker is at most one step of the reference. */
  lemma {:induction false} BatchingRefines(c: Conn, e: ConnEvent)
    requires ConnInv(c)
    ensures Abstract(ConnStep(c, e)) == PlainStep(Abstract(c), PlainEventOf(c, e))
  {
    if e.Take? || e.TakeMore? {
      TakingRefines(c, e);
    } else if e.Flush? || e.FailBatch? {
      WritingRefines(c, e);
    } else if e.Respond? && c.worker.Handling? {
      ItemsAppended(c.wire, Response(c.worker.request));
      BurstAppended(c.wire, Response(c.worker.request));
      assert ItemsOf(c.inflight) == [] && ItemsOf(ConnStep(c, e).inflight) == [];
    }
  }

  /** Until it is closed the queue takes a message exactly when the reference's queue has room,
      whatever part of a batch is under way. */
  lemma {:induction false} AcceptRefines(c: Conn, m: Message)
    requires ConnInv(c)
    ensures Abstract(Accept(c, m)) == PlainStep(Abstract(c), if c.open then Arrive(m) else Stay)
  {
  }
}
