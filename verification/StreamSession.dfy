/** One session's streaming loop: `Session::run_tcp_interleaved`.

    `Loop` is the loop's local state and `Step` the effect of one `select!` arm.  The class
    `StreamingLoop` is the loop itself, written as the source writes it; its methods are
    proved against `Step`.  What the loop promises is proved about `Run`, for every
    sequence of events. */
module StreamSession {
  import opened Sequences
  import opened Media

  datatype Mode = Ready | Playing

  datatype Loop = Loop(
    running: bool,
    mode: Mode,
    needStreamState: bool,
    waitForKeyframe: bool,
    droppedFrames: nat,
    nextSeq: Seq16)

  function InitLoop(first: Seq16): Loop {
    Loop(true, Ready, false, true, 0, first)
  }

  /** How the connection's queue answers the `try_send`s of one frame: the first message
      that is refused, and why.  Other sessions and the writer work on the queue at the
      same time, so any answer is possible. */
  datatype Sends = AllSent | FullAt(at: nat) | ClosedAt(at: nat)

  datatype SendResult = Sent | Full | Closed

  function Attempt(sends: Sends, i: nat): SendResult {
    match sends
    case AllSent => Sent
    case FullAt(at) => if i < at then Sent else Full
    case ClosedAt(at) => if i < at then Sent else Closed
  }

  /** How many of `n` messages get through. */
  function AcceptedCount(n: nat, sends: Sends): (k: nat)
    ensures k <= n
    ensures forall i :: 0 <= i < k ==> Attempt(sends, i) == Sent
    ensures k < n ==> Attempt(sends, k) != Sent
  {
    match sends
    case AllSent => n
    case FullAt(at) => if at < n then at else n
    case ClosedAt(at) => if at < n then at else n
  }

  datatype Event =
    | Packet(frame: Frame, mux: MuxResult, sends: Sends)
    | Lagged(skipped: nat)
    | SourceBroken
    | Play
    | StreamState
    | ControlBroken
    | StopSignal

  /** What `Session::play` sends to the loop. */
  datatype Control = PlayMessage | StreamStateMessage

  function EventOf(message: Control): Event {
    if message.PlayMessage? then Play else StreamState
  }

  /** What became of one source frame. */
  datatype Fate =
    | Skipped                                                           // lost to lag
    | Discarded                                                         // awaiting a keyframe
    | Unmuxed                                                           // the muxer failed
    | Silent(payloads: seq<Payload>)                                    // muxed while Ready
    | Offered(payloads: seq<Payload>, accepted: nat, closed: bool)      // pushed to the queue
  {
    predicate Whole() {
      Offered? && accepted == |payloads|
    }
  }

  // ----- one step

  /** The keyframe gate. */
  predicate Admits(s: Loop, frame: Frame) {
    s.mode.Playing? && s.waitForKeyframe ==> frame.key
  }

  /** From passing the gate to having muxed the frame and answered a stream-state request. */
  function Begin(s: Loop, mux: MuxResult): Loop {
    s.(running := mux.Muxed?,
       needStreamState := false,
       waitForKeyframe := s.mode.Ready? && s.waitForKeyframe,
       droppedFrames := if s.mode.Playing? && s.waitForKeyframe then 0 else s.droppedFrames,
       nextSeq := CounterAfter(s.nextSeq, mux))
  }

  /** The outcome of pushing a frame of `n` messages. */
  function Settle(s: Loop, n: nat, sends: Sends): Loop {
    if AcceptedCount(n, sends) == n then s
    else if sends.FullAt? then s.(droppedFrames := s.droppedFrames + 1, waitForKeyframe := true)
    else s.(running := false)
  }

  function Step(s: Loop, e: Event): Loop {
    if !s.running then s
    else
      match e
      case Packet(frame, mux, sends) =>
        if !Admits(s, frame) then s
        else if mux.MuxFailed? || s.mode.Ready? then Begin(s, mux)
        else Settle(Begin(s, mux), |mux.kinds|, sends)
      case Lagged(_) => s.(waitForKeyframe := true)
      case Play => s.(mode := Playing, waitForKeyframe := true)
      case StreamState => s.(needStreamState := true)
      case SourceBroken => s.(running := false)
      case ControlBroken => s.(running := false)
      case StopSignal => s.(running := false)
  }

  function Skips(n: nat): seq<Fate> {
    seq(n, _ => Skipped)
  }

  /** The source frames an event disposes of, in source order. */
  function FatesOf(s: Loop, e: Event): seq<Fate> {
    if !s.running then []
    else
      match e
      case Packet(frame, mux, sends) =>
        if !Admits(s, frame) then [Discarded]
        else if mux.MuxFailed? then [Unmuxed]
        else
          var payloads := Number(s.nextSeq, mux.kinds);
          if s.mode.Ready? then [Silent(payloads)]
          else [Offered(payloads, AcceptedCount(|payloads|, sends), sends.ClosedAt? && sends.at < |payloads|)]
      case Lagged(skipped) => Skips(skipped)
      case _ => []
  }

  /** The stream state an event reports, if it reports one. */
  datatype Reply = NoReply | StateReply(rtpSeq: Seq16)

  function ReplyOf(s: Loop, e: Event): Reply {
    if s.running && s.needStreamState && e.Packet? && Admits(s, e.frame)
    then StateReply(CounterAfter(s.nextSeq, e.mux))
    else NoReply
  }

  // ----- runs

  function Run(s: Loop, events: seq<Event>): Loop {
    if events == [] then s
    else Step(Run(s, events[..|events| - 1]), events[|events| - 1])
  }

  function Fates(s: Loop, events: seq<Event>): seq<Fate> {
    if events == [] then []
    else
      var before := events[..|events| - 1];
      Fates(s, before) + FatesOf(Run(s, before), events[|events| - 1])
  }

  lemma {:induction false} RunSnoc(s: Loop, events: seq<Event>, e: Event)
    ensures Run(s, events + [e]) == Step(Run(s, events), e)
    ensures Fates(s, events + [e]) == Fates(s, events) + FatesOf(Run(s, events), e)
  {
    assert (events + [e])[..|events|] == events;
  }

  lemma {:induction false} RunConcat(s: Loop, a: seq<Event>, b: seq<Event>)
    ensures Run(s, a + b) == Run(Run(s, a), b)
    ensures Fates(s, a + b) == Fates(s, a) + Fates(Run(s, a), b)
    decreases |b|
  {
    if b == [] {
      assert a + b == a;
    } else {
      hide Step, FatesOf;
      var front, last := b[..|b| - 1], b[|b| - 1];
      RunConcat(s, a, front);
      RunSnoc(s, a + front, last);
      RunSnoc(Run(s, a), front, last);
      SplitLast(b);
      ConcatLast(a, b);
      Associative(Fates(s, a), Fates(Run(s, a), front), FatesOf(Run(s, a + front), last));
    }
  }

  lemma {:induction false} PrefixStep(s: Loop, events: seq<Event>, i: nat)
    requires i < |events|
    ensures Run(s, events[..i + 1]) == Step(Run(s, events[..i]), events[i])
    ensures Fates(s, events[..i + 1]) == Fates(s, events[..i]) + FatesOf(Run(s, events[..i]), events[i])
  {
    assert events[..i + 1] == events[..i] + [events[i]];
    RunSnoc(s, events[..i], events[i]);
  }

  /** Once the loop has stopped, the remaining events change nothing. */
  lemma {:induction false} Stopped(s: Loop, events: seq<Event>, i: nat)
    requires i <= |events| && (i < |events| ==> !Run(s, events[..i]).running)
    ensures Run(s, events) == Run(s, events[..i]) && Fates(s, events) == Fates(s, events[..i])
    decreases |events| - i
  {
    if i < |events| {
      PrefixStep(s, events, i);
      Stopped(s, events, i + 1);
    } else {
      assert events[..i] == events;
    }
  }

  // ----- the loop as the source writes it

  datatype Interleaved = Interleaved(channel: nat, payload: Payload)

  /** RTP goes to the RTP channel and RTCP to the RTCP channel of the session's target. */
  function Interleave(rtpChannel: nat, rtcpChannel: nat, payloads: seq<Payload>): (r: seq<Interleaved>)
    ensures |r| == |payloads| && forall i :: 0 <= i < |r| ==> r[i].payload == payloads[i]
  {
    seq(|payloads|, i requires 0 <= i < |payloads| =>
      Interleaved(if payloads[i].Rtp? then rtpChannel else rtcpChannel, payloads[i]))
  }

  class StreamingLoop {
    const rtpChannel: nat
    const rtcpChannel: nat
    var running: bool
    var state: Mode
    var needStreamState: bool
    var waitForKeyframe: bool
    var droppedFrames: nat
    var nextSeq: Seq16
    ghost var history: seq<Fate>

    ghost function View(): Loop
      reads this
    {
      Loop(running, state, needStreamState, waitForKeyframe, droppedFrames, nextSeq)
    }

    constructor (first: Seq16, rtpChannel: nat, rtcpChannel: nat)
      ensures View() == InitLoop(first) && history == []
      ensures this.rtpChannel == rtpChannel && this.rtcpChannel == rtcpChannel
    {
      this.rtpChannel, this.rtcpChannel := rtpChannel, rtcpChannel;
      running, state, needStreamState := true, Ready, false;
      waitForKeyframe, droppedFrames, nextSeq := true, 0, first;
      history := [];
    }

    /** The `source_packet_rx.recv()` arm for a frame that was received. */
    method OnPacket(frame: Frame, mux: MuxResult, sends: Sends) returns (accepted: seq<Interleaved>, reply: Reply)
      requires running
      modifies this
      ensures View() == Step(old(View()), Packet(frame, mux, sends))
      ensures history == old(history) + FatesOf(old(View()), Packet(frame, mux, sends))
      ensures reply == ReplyOf(old(View()), Packet(frame, mux, sends))
      ensures var fate := FatesOf(old(View()), Packet(frame, mux, sends))[0];
              accepted == if fate.Offered?
                          then Interleave(rtpChannel, rtcpChannel, fate.payloads)[..fate.accepted]
                          else []
      ensures forall m <- accepted :: m.channel == if m.payload.Rtp? then rtpChannel else rtcpChannel
    {
      accepted, reply := [], NoReply;
      ghost var fates := FatesOf(View(), Packet(frame, mux, sends));
      history := history + fates;
      if state.Playing? && waitForKeyframe {
        if !frame.key {
          return;
        }
        if droppedFrames > 0 {
          droppedFrames := 0;
        }
        waitForKeyframe := false;
      }
      var first := nextSeq;
      nextSeq := CounterAfter(first, mux);
      if needStreamState {
        reply := StateReply(nextSeq);
        needStreamState := false;
      }
      if mux.MuxFailed? {
        running := false;
        return;
      }
      if state.Playing? {
        accepted := PushAll(Interleave(rtpChannel, rtcpChannel, Number(first, mux.kinds)), sends);
      }
    }

    /** The loop that pushes the messages of one frame, up to the first refusal. */
    method PushAll(messages: seq<Interleaved>, sends: Sends) returns (accepted: seq<Interleaved>)
      modifies this`running, this`droppedFrames, this`waitForKeyframe
      ensures View() == Settle(old(View()), |messages|, sends)
      ensures accepted == messages[..AcceptedCount(|messages|, sends)]
      ensures forall i :: 0 <= i < |accepted| ==> Attempt(sends, i).Sent?
      ensures |accepted| < |messages| ==> !Attempt(sends, |accepted|).Sent?
      ensures if |accepted| < |messages| && Attempt(sends, |accepted|).Closed? then
                !running && droppedFrames == old(droppedFrames) && waitForKeyframe == old(waitForKeyframe)
              else if |accepted| < |messages| then
                running == old(running) && droppedFrames == old(droppedFrames) + 1 && waitForKeyframe
              else
                View() == old(View())
    {
      accepted := [];
      for i := 0 to |messages|
        invariant accepted == messages[..i]
        invariant i <= AcceptedCount(|messages|, sends)
        invariant View() == old(View())
      {
        match Attempt(sends, i) {
          case Sent =>
            accepted := accepted + [messages[i]];
          case Full =>
            droppedFrames := droppedFrames + 1;
            waitForKeyframe := true;
            break;
          case Closed =>
            running := false;
            break;
        }
      }
    }

    /** `RecvError::Lagged`: the ring overwrote `skipped` unread frames. */
    method OnLagged(skipped: nat)
      requires running
      modifies this
      ensures View() == Step(old(View()), Lagged(skipped))
      ensures history == old(history) + FatesOf(old(View()), Lagged(skipped))
    {
      history := history + Skips(skipped);
      waitForKeyframe := true;
    }

    /** The `control_rx.recv()` arm. */
    method OnControl(play: bool)
      requires running
      modifies this
      ensures View() == Step(old(View()), if play then Play else StreamState)
      ensures history == old(history)
    {
      if play {
        state := Playing;
        waitForKeyframe := true;
      } else {
        needStreamState := true;
      }
    }

    /** Every arm that breaks out of the loop. */
    method OnExit()
      requires running
      modifies this
      ensures View() == Step(old(View()), StopSignal) == Step(old(View()), SourceBroken) == Step(old(View()), ControlBroken)
      ensures history == old(history)
    {
      running := false;
    }

    /** One turn of the loop: whichever arm of `select!` is ready. */
    method Turn(e: Event)
      requires running
      modifies this
      ensures View() == Step(old(View()), e)
      ensures history == old(history) + FatesOf(old(View()), e)
    {
      match e {
        case Packet(frame, mux, sends) =>
          var _, _ := OnPacket(frame, mux, sends);
        case Lagged(skipped) =>
          OnLagged(skipped);
        case Play =>
          OnControl(true);
        case StreamState =>
          OnControl(false);
        case _ =>
          OnExit();
      }
    }

    /** The `'main` loop: handle events until one of them ends the session. */
    method HandleAll(events: seq<Event>)
      modifies this
      ensures View() == Run(old(View()), events)
      ensures history == old(history) + Fates(old(View()), events)
    {
      ghost var init := View();
      var i := 0;
      while running && i < |events|
        invariant i <= |events|
        invariant View() == Run(init, events[..i])
        invariant history == old(history) + Fates(init, events[..i])
      {
        PrefixStep(init, events, i);
        Turn(events[i]);
        i := i + 1;
      }
      Stopped(init, events, i);
    }
  }
}
