/** The PLAY handshake: `Session::play` talking to a running streaming loop.

    The session's mutex makes calls sequential, so there is at most one call in progress.
    A call subscribes to the stream-state channel, asks for the stream state, waits for the
    reply, and only then sends Play.  Every action is one step between two await points. */
module PlayProtocol {
  import opened Wrappers
  import opened Media
  import opened StreamSession
  import opened StreamTheorems

  datatype NptTime = Now | Time(seconds: real)

  datatype Range = Range(start: Option<NptTime>, end: Option<NptTime>)

  predicate IsRangeSupported(range: Range) {
    match (range.start, range.end)
    case (Some(Now), None) => true
    case (Some(Time(start)), None) => start <= 0.0
    case _ => false
  }

  /** A reported stream state: the sequence number, and as history how many RTP messages had
      been muxed and which call was in progress when it was sampled. */
  datatype Sample = Sample(rtpSeq: Seq16, muxed: nat, call: nat)

  datatype Call = Idle | Subscribed | Awaiting | Received(sample: Sample)

  datatype State = State(
    loop: Loop,
    controlOpen: bool,         // the loop still owns the receiving end of the control channel
    control: seq<Control>,
    call: Call,
    mailbox: seq<Sample>,      // what the call's stream-state receiver has not read yet
    calls: nat,                // history: calls begun
    muxed: nat,                // history: RTP messages muxed
    latest: Option<Sample>)    // history: what the last call that sent Play had received

  datatype Action =
    | Subscribe(range: Option<Range>)
    | Request
    | Receive
    | SendPlay
    | HandleControl
    | Other(event: Event)      // any other arm of the loop
    | CloseControl

  function Init(first: Seq16): State {
    State(InitLoop(first), true, [], Idle, [], 0, 0, None)
  }

  function DoOther(p: State, e: Event): State {
    var muxed := p.muxed + MuxedBy(p.loop, e);
    var mailbox := match ReplyOf(p.loop, e)
                   case StateReply(rtpSeq) => if p.call.Idle? then [] else p.mailbox + [Sample(rtpSeq, muxed, p.calls)]
                   case NoReply => p.mailbox;
    p.(loop := Step(p.loop, e), muxed := muxed, mailbox := mailbox)
  }

  /** One action; an action that is not possible changes nothing. */
  function Do(p: State, a: Action): State {
    match a
    case Subscribe(range) =>
      if p.call.Idle? && (range.Some? ==> IsRangeSupported(range.value))
      then p.(call := Subscribed, mailbox := [], calls := p.calls + 1)
      else p
    case Request =>
      if !p.call.Subscribed? then p
      else if p.controlOpen then p.(call := Awaiting, control := p.control + [StreamStateMessage])
      else p.(call := Idle)
    case Receive =>
      if p.call.Awaiting? && p.mailbox != []
      then p.(call := Received(p.mailbox[0]), mailbox := p.mailbox[1..])
      else p
    case SendPlay =>
      if !p.call.Received? then p
      else if p.controlOpen then p.(call := Idle, control := p.control + [PlayMessage], latest := Some(p.call.sample))
      else p.(call := Idle)
    case HandleControl =>
      if p.loop.running && p.control != []
      then p.(loop := Step(p.loop, EventOf(p.control[0])), control := p.control[1..])
      else p
    case Other(event) =>
      if event.Play? || event.StreamState? then p else DoOther(p, event)
    case CloseControl =>
      if p.loop.running then p else p.(controlOpen := false)
  }

  function Perform(p: State, actions: seq<Action>): State {
    if actions == [] then p
    else Do(Perform(p, actions[..|actions| - 1]), actions[|actions| - 1])
  }

  // ----- what every action keeps

  /** At most one Play is queued, ahead of at most one request. */
  predicate QueueShape(control: seq<Control>) {
    |control| <= 2 && (|control| == 2 ==> control[0].PlayMessage? && control[1].StreamStateMessage?)
  }

  predicate Asked(p: State) {
    p.control != [] && p.control[|p.control| - 1].StreamStateMessage?
  }

  /** A request is in exactly one place: queued, held by the loop, or answered. */
  predicate RequestInv(p: State) {
    && (!p.call.Awaiting? ==> !Asked(p) && !p.loop.needStreamState && p.mailbox == [])
    && (p.call.Received? ==> p.control == [])
    && (p.call.Awaiting? ==>
          || (Asked(p) && !p.loop.needStreamState && p.mailbox == [])
          || (p.control == [] && p.loop.needStreamState && p.mailbox == [])
          || (p.control == [] && !p.loop.needStreamState && |p.mailbox| == 1 && p.mailbox[0].call == p.calls))
    && (p.call.Received? ==> p.call.sample.call == p.calls)
    && (p.control != [] && p.control[0].PlayMessage? ==> p.latest.Some?)
    && (p.loop.running ==> p.controlOpen)
  }

  ghost predicate Accurate(first: Seq16, p: State, sample: Sample) {
    sample.muxed <= p.muxed && sample.rtpSeq == Advance(first, sample.muxed)
  }

  /** While the loop runs, its muxer and every sample agree with the count of muxed RTP. */
  ghost predicate CountInv(first: Seq16, p: State) {
    p.loop.running ==>
      && p.loop.nextSeq == Advance(first, p.muxed)
      && (forall sample <- p.mailbox :: Accurate(first, p, sample))
      && (p.call.Received? ==> Accurate(first, p, p.call.sample))
      && (p.latest.Some? ==> Accurate(first, p, p.latest.value))
  }

  ghost predicate Inv(first: Seq16, p: State) {
    QueueShape(p.control) && RequestInv(p) && CountInv(first, p)
  }

  lemma {:induction false} OtherKeeps(first: Seq16, p: State, e: Event)
    requires Inv(first, p) && !e.Play? && !e.StreamState?
    ensures Inv(first, DoOther(p, e))
  {
    var q := DoOther(p, e);
    if q.loop.running {
      AdvanceTwice(first, p.muxed, MuxedBy(p.loop, e));
      forall sample | sample in q.mailbox ensures Accurate(first, q, sample) {
        if sample in p.mailbox {
          assert Accurate(first, p, sample);
        }
      }
    }
  }

  lemma {:induction false} DoKeeps(first: Seq16, p: State, a: Action)
    requires Inv(first, p)
    ensures Inv(first, Do(p, a))
  {
    if a.Other? {
      if !a.event.Play? && !a.event.StreamState? {
        OtherKeeps(first, p, a.event);
      }
    } else if a.Receive? && p.call.Awaiting? && p.mailbox != [] {
      assert p.mailbox[1..] == [];
      assert p.mailbox[0] in p.mailbox;
    }
  }

  lemma {:induction false} Reachable(first: Seq16, actions: seq<Action>)
    ensures Inv(first, Perform(Init(first), actions))
  {
    if actions == [] {
    } else {
      Reachable(first, actions[..|actions| - 1]);
      DoKeeps(first, Perform(Init(first), actions[..|actions| - 1]), actions[|actions| - 1]);
    }
  }

  /** What `play` returns was sampled during that very call, after it subscribed. */
  lemma {:induction false} SampledAfterSubscribing(first: Seq16, actions: seq<Action>)
    ensures var p := Perform(Init(first), actions); p.call.Received? ==> p.call.sample.call == p.calls
  {
    Reachable(first, actions);
  }

  /** Which ranges a call accepts: none, or one without an end that begins now or no later than zero.
      Any other changes nothing. */
  lemma {:induction false} BeginsIff(p: State, range: Option<Range>)
    requires p.call.Idle?
    ensures Do(p, Subscribe(range)).call.Subscribed? <==>
              range.None? || (range.value.end.None? && range.value.start.Some?
                              && (range.value.start.value.Now? || range.value.start.value.seconds <= 0.0))
    ensures var q := Do(p, Subscribe(range));
            if q.call.Subscribed? then q.calls == p.calls + 1 && q.mailbox == [] else q == p
  {
  }

  /** How many calls have begun. */
  function BegunIn(p: State, actions: seq<Action>): nat {
    if actions == [] then 0
    else
      var front := actions[..|actions| - 1];
      BegunIn(p, front)
      + if Perform(p, front).call.Idle? && !Perform(p, actions).call.Idle? then 1 else 0
  }

  /** The number by which samples are told apart is that of the calls begun. */
  lemma {:induction false} CallsCounted(p: State, actions: seq<Action>)
    ensures Perform(p, actions).calls == p.calls + BegunIn(p, actions)
  {
    if actions != [] {
      var front := actions[..|actions| - 1];
      CallsCounted(p, front);
      hide Step, ReplyOf, MuxedBy;
    }
  }

  /** The loop starts playing, or comes to owe a reply, only by handling the oldest message in its
      control channel, and then the message that says so. */
  lemma {:induction false} OnlyMessagesControl(p: State, a: Action)
    ensures var q := Do(p, a);
            && (q.loop.mode != p.loop.mode ==> a.HandleControl? && p.control == [PlayMessage] + q.control)
            && (q.loop.needStreamState && !p.loop.needStreamState ==> a.HandleControl? && p.control == [StreamStateMessage] + q.control)
  {
    hide AcceptedCount, ReplyOf, MuxedBy;
  }

  /** A call whose control channel is gone fails, both at its request and at its Play; otherwise the
      message is queued behind what is there. */
  lemma {:induction false} BrokenControl(p: State)
    ensures p.call.Subscribed? ==>
              var q := Do(p, Request);
              if p.controlOpen then q.call.Awaiting? && q.control == p.control + [StreamStateMessage]
              else q.call.Idle? && q.control == p.control && q.latest == p.latest
    ensures p.call.Received? ==>
              var q := Do(p, SendPlay);
              && q.call.Idle?
              && (if p.controlOpen then q.control == p.control + [PlayMessage] && q.latest == Some(p.call.sample)
                  else q.control == p.control && q.latest == p.latest)
  {
  }

  /** Once the loop is gone and its end of the channel dropped, which can always happen then and only
      then, no call gets further than its next message. */
  lemma {:induction false} LoopGone(p: State)
    ensures !Do(p, CloseControl).controlOpen <==> !p.loop.running || !p.controlOpen
    ensures !p.loop.running && p.call.Subscribed? ==> Do(Do(p, CloseControl), Request).call.Idle?
    ensures !p.loop.running && p.call.Received? ==>
              var q := Do(Do(p, CloseControl), SendPlay); q.call.Idle? && q.control == p.control
  {
  }

  // ----- RTP-Info

  lemma {:induction false} NoRtp(offers: seq<Offer>)
    requires forall o <- offers :: o.payload.Rtcp?
    ensures RtpIn(offers) == 0
  {
    if offers == [] {
    } else {
      NoRtp(offers[..|offers| - 1]);
    }
  }

  predicate IsFirstRtp(offers: seq<Offer>, i: nat) {
    i < |offers| && offers[i].payload.Rtp? && forall j :: 0 <= j < i ==> offers[j].payload.Rtcp?
  }

  lemma {:induction false} FirstRtp(s: Loop, events: seq<Event>, i: nat)
    requires s.running && s.mode.Playing?
    requires IsFirstRtp(Offers(Fates(s, events)), i)
    ensures Offers(Fates(s, events))[i].payload.number == s.nextSeq
  {
    var offers := Offers(Fates(s, events));
    PlayingNumbering(s, events);
    NoRtp(offers[..i]);
    assert NumberedAt(offers, s.nextSeq, i);
  }

  /** The loop is about to handle the Play of a call. */
  predicate AtPlay(p: State) {
    p.loop.running && p.control != [] && p.control[0].PlayMessage?
  }

  lemma {:induction false} PlayHandled(first: Seq16, p: State) returns (s: Loop)
    requires Inv(first, p) && AtPlay(p)
    ensures s == Do(p, HandleControl).loop && s.running && s.mode.Playing?
    ensures p.latest.Some? && p.latest.value.muxed <= p.muxed
    ensures s.nextSeq == Advance(p.latest.value.rtpSeq, p.muxed - p.latest.value.muxed)
  {
    s := Do(p, HandleControl).loop;
    assert Accurate(first, p, p.latest.value);
    AdvanceTwice(first, p.latest.value.muxed, p.muxed - p.latest.value.muxed);
  }

  lemma {:induction false} PlayReached(first: Seq16, actions: seq<Action>) returns (s: Loop)
    requires AtPlay(Perform(Init(first), actions))
    ensures var p := Perform(Init(first), actions);
            && s == Do(p, HandleControl).loop && s.running && s.mode.Playing?
            && p.latest.Some? && p.latest.value.muxed <= p.muxed
            && s.nextSeq == Advance(p.latest.value.rtpSeq, p.muxed - p.latest.value.muxed)
  {
    Reachable(first, actions);
    s := PlayHandled(first, Perform(Init(first), actions));
  }

  /** RTP-Info agreement.  Take any run up to the moment the loop is about to handle the Play of
      a call, and any events after it.  The first RTP message offered from then on carries the
      sequence number that call reported, advanced by the RTP messages muxed between sampling
      and Play: the very number when none were. */
  lemma {:induction false} RtpInfo(first: Seq16, actions: seq<Action>, events: seq<Event>, i: nat)
    requires AtPlay(Perform(Init(first), actions))
    requires IsFirstRtp(Offers(Fates(Do(Perform(Init(first), actions), HandleControl).loop, events)), i)
    ensures var p := Perform(Init(first), actions);
            && p.latest.Some? && p.latest.value.muxed <= p.muxed
            && Offers(Fates(Do(p, HandleControl).loop, events))[i].payload.number
               == Advance(p.latest.value.rtpSeq, p.muxed - p.latest.value.muxed)
  {
    var s := PlayReached(first, actions);
    FirstRtp(s, events, i);
  }

  // ----- when a waiting call can return

  /** The loop is gone and the call has no reply: nothing will wake it, because the session
      itself keeps a sending end of the stream-state channel open. */
  predicate Stranded(p: State) {
    p.call.Awaiting? && !p.loop.running && p.mailbox == []
  }

  lemma {:induction false} StrandedStep(p: State, a: Action)
    requires Stranded(p)
    ensures Stranded(Do(p, a))
  {
  }

  lemma {:induction false} StrandedForever(p: State, actions: seq<Action>)
    requires Stranded(p)
    ensures Stranded(Perform(p, actions))
  {
    if actions == [] {
    } else {
      StrandedForever(p, actions[..|actions| - 1]);
      StrandedStep(Perform(p, actions[..|actions| - 1]), actions[|actions| - 1]);
      hide Do;
    }
  }

  lemma {:induction false} PerformSnoc(p: State, actions: seq<Action>, a: Action)
    ensures Perform(p, actions + [a]) == Do(Perform(p, actions), a)
  {
    assert (actions + [a])[..|actions|] == actions;
  }

  /** The loop is running and still owes the waiting call its reply. */
  ghost predicate Owing(first: Seq16, p: State) {
    Inv(first, p) && p.call.Awaiting? && p.loop.running && p.mailbox == []
  }

  lemma {:induction false} OneHandled(first: Seq16, p: State)
    requires Owing(first, p) && p.control != []
    ensures Owing(first, Do(p, HandleControl)) && |Do(p, HandleControl).control| < |p.control|
  {
    DoKeeps(first, p, HandleControl);
  }

  lemma {:induction false} QueueHandled(first: Seq16, p: State) returns (actions: seq<Action>)
    requires Owing(first, p)
    ensures Owing(first, Perform(p, actions)) && Perform(p, actions).control == []
  {
    actions := [];
    ghost var q := p;
    while q.control != []
      invariant q == Perform(p, actions) && Owing(first, q)
      decreases |q.control|
    {
      OneHandled(first, q);
      PerformSnoc(p, actions, HandleControl);
      actions, q := actions + [HandleControl], Do(q, HandleControl);
    }
  }

  const KEYFRAME := Other(Packet(Frame(true), Muxed([]), AllSent))

  lemma {:induction false} Replies(first: Seq16, p: State)
    requires Owing(first, p) && p.control == []
    ensures Do(p, KEYFRAME).call.Awaiting? && Do(p, KEYFRAME).mailbox != []
  {
  }

  /** A schedule that completes a waiting call: let the loop handle what is queued, receive one
      keyframe, and read the reply. */
  lemma {:induction false} Rescue(first: Seq16, p: State) returns (actions: seq<Action>)
    requires Inv(first, p) && p.call.Awaiting? && !Stranded(p)
    ensures Perform(p, actions).call.Received?
  {
    actions := [];
    if p.mailbox == [] {
      actions := QueueHandled(first, p);
      Replies(first, Perform(p, actions));
      PerformSnoc(p, actions, KEYFRAME);
      actions := actions + [KEYFRAME];
    }
    PerformSnoc(p, actions, Receive);
    actions := actions + [Receive];
  }

  /** A waiting `play` can still return exactly when the loop is running or its reply is there. */
  lemma {:induction false} PlayReturnsIff(first: Seq16, actions: seq<Action>)
    requires Perform(Init(first), actions).call.Awaiting?
    ensures var p := Perform(Init(first), actions);
            (exists more :: !Perform(p, more).call.Awaiting?) <==> p.loop.running || p.mailbox != []
  {
    var p := Perform(Init(first), actions);
    Reachable(first, actions);
    if Stranded(p) {
      forall more ensures Perform(p, more).call.Awaiting? {
        StrandedForever(p, more);
      }
    } else {
      var more := Rescue(first, p);
      assert !Perform(p, more).call.Awaiting?;
    }
  }

  /** And a call can end up stranded: the muxer fails on a frame while the request is still queued,
      and the loop ends without having looked at it. */
  lemma {:induction false} PlayCanHang(first: Seq16, frame: Frame, counter: Seq16) returns (actions: seq<Action>)
    ensures actions == [Subscribe(None), Request, Other(Packet(frame, MuxFailed(counter), AllSent))]
    ensures Stranded(Perform(Init(first), actions))
  {
    var failure := Other(Packet(frame, MuxFailed(counter), AllSent));
    PerformSnoc(Init(first), [], Subscribe(None));
    PerformSnoc(Init(first), [Subscribe(None)], Request);
    PerformSnoc(Init(first), [Subscribe(None), Request], failure);
    assert [] + [Subscribe(None)] == [Subscribe(None)];
    assert [Subscribe(None)] + [Request] == [Subscribe(None), Request];
    actions := [Subscribe(None), Request] + [failure];
  }
}
