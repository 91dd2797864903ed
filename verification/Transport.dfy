/** Transport negotiation in SETUP: which of the client's candidate transports is used, and where
    the session will send.

    A transport is its lower protocol, if named, and its parameters; the accessors of the RTSP
    library (first parameter of a kind, appending a parameter) are taken as documented there. */
module Transport {
  import opened Wrappers

  datatype Lower = Udp | Tcp

  datatype Method = PlayMethod | OtherMethod

  datatype Channel = Single(channel: nat) | Pair(rtp: nat, rtcp: nat)

  datatype Parameter =
    | Unicast | Multicast | Destination(host: string) | Interleaved(channels: Channel) | Append
    | Ttl(ttl: nat) | Layers(layers: nat) | Port(port: nat) | ClientPort(first: nat, second: Option<nat>)
    | ServerPort(serverPort: nat) | Ssrc(ssrc: string) | Mode(mode: Method)

  datatype Candidate = Candidate(lower: Option<Lower>, parameters: seq<Parameter>)

  /** The client's interleaved channels, if it named any: the first such parameter. */
  function InterleavedChannel(parameters: seq<Parameter>): Option<Channel> {
    if parameters == [] then None
    else if parameters[0].Interleaved? then Some(parameters[0].channels)
    else InterleavedChannel(parameters[1..])
  }

  function FirstDestination(parameters: seq<Parameter>): Option<string> {
    if parameters == [] then None
    else if parameters[0].Destination? then Some(parameters[0].host)
    else FirstDestination(parameters[1..])
  }

  function FirstClientPort(parameters: seq<Parameter>): Option<(nat, Option<nat>)> {
    if parameters == [] then None
    else if parameters[0].ClientPort? then Some((parameters[0].first, parameters[0].second))
    else FirstClientPort(parameters[1..])
  }

  predicate IsParameterSupported(p: Parameter) {
    p.Unicast? || p.Interleaved? || (p.Mode? && p.mode.PlayMethod?)
  }

  predicate IsSupported(t: Candidate) {
    (t.lower.Some? ==> t.lower.value.Tcp?) && forall p <- t.parameters :: IsParameterSupported(p)
  }

  function Resolve(t: Candidate): Candidate {
    if InterleavedChannel(t.parameters).Some? then t
    else t.(parameters := t.parameters + [Interleaved(Pair(0, 1))])
  }

  datatype Target =
    | RtpUdp(host: string, rtpPort: nat, rtcpPort: nat)
    | RtpTcp(rtpChannel: nat, rtcpChannel: nat)

  /** Ports and channels are 16 and 8 bits wide; "the next one" wraps. */
  function TargetOf(t: Candidate): Option<Target> {
    match t.lower
    case None => None
    case Some(Udp) =>
      (match (FirstDestination(t.parameters), FirstClientPort(t.parameters))
       case (Some(host), Some((rtp, None))) => Some(RtpUdp(host, rtp, (rtp + 1) % 0x1_0000))
       case (Some(host), Some((rtp, Some(rtcp)))) => Some(RtpUdp(host, rtp, rtcp))
       case _ => None)
    case Some(Tcp) =>
      match InterleavedChannel(t.parameters)
      case None => None
      case Some(Single(channel)) => Some(RtpTcp(channel, (channel + 1) % 0x100))
      case Some(Pair(rtp, rtcp)) => Some(RtpTcp(rtp, rtcp))
  }

  datatype SetupError = TransportNotSupported | DestinationInvalid | Media

  datatype Setup = Setup(transport: Candidate, target: Target, streams: nat)

  /** The first supported candidate. */
  predicate IsFirstSupported(candidates: seq<Candidate>, i: nat) {
    i < |candidates| && IsSupported(candidates[i]) && forall j :: 0 <= j < i ==> !IsSupported(candidates[j])
  }

  lemma {:induction false} ChannelAppended(parameters: seq<Parameter>, channels: Channel)
    requires InterleavedChannel(parameters).None?
    ensures InterleavedChannel(parameters + [Interleaved(channels)]) == Some(channels)
  {
    if parameters == [] {
    } else {
      ChannelAppended(parameters[1..], channels);
      assert (parameters + [Interleaved(channels)])[1..] == parameters[1..] + [Interleaved(channels)];
    }
  }

  /** The channel parameter that counts is the first one. */
  lemma {:induction false} FirstChannel(parameters: seq<Parameter>, i: nat)
    requires i < |parameters| && parameters[i].Interleaved? && forall j :: 0 <= j < i ==> !parameters[j].Interleaved?
    ensures InterleavedChannel(parameters) == Some(parameters[i].channels)
  {
    if i > 0 {
      FirstChannel(parameters[1..], i - 1);
    }
  }

  lemma {:induction false} NoChannel(parameters: seq<Parameter>)
    requires forall p <- parameters :: !p.Interleaved?
    ensures InterleavedChannel(parameters) == None
  {
    if parameters == [] {
    } else {
      NoChannel(parameters[1..]);
    }
  }

  /** What rules a candidate out: UDP, and everything that belongs to UDP, to multicast, to recording or
      to parameters that are the server's to choose. */
  predicate Unsuitable(t: Candidate) {
    || t.lower == Some(Udp)
    || exists p <- t.parameters ::
         || p.Multicast? || p.Destination? || p.Append? || p.Ttl? || p.Layers? || p.Port? || p.ClientPort?
         || p.ServerPort? || p.Ssrc? || p == Mode(OtherMethod)
  }

  lemma {:induction false} SupportedIff(t: Candidate)
    ensures IsSupported(t) <==> !Unsuitable(t)
  {
  }

  /** The channels a session on candidate `t` will use. */
  function Channels(t: Candidate): (nat, nat) {
    match InterleavedChannel(t.parameters)
    case None => (0, 1)
    case Some(Single(channel)) => (channel, (channel + 1) % 0x100)
    case Some(Pair(rtp, rtcp)) => (rtp, rtcp)
  }

  /** A supported candidate resolves to a TCP target on the channels it named, or 0 and 1, or to
      no target at all when it named no lower protocol: never to a UDP target. */
  lemma {:induction false} ResolvedTarget(t: Candidate)
    requires IsSupported(t)
    ensures IsSupported(Resolve(t))
    ensures TargetOf(Resolve(t)) == if t.lower.Some? then Some(RtpTcp(Channels(t).0, Channels(t).1)) else None
    ensures InterleavedChannel(Resolve(t).parameters)
            == if InterleavedChannel(t.parameters).Some? then InterleavedChannel(t.parameters) else Some(Pair(0, 1))
    ensures Resolve(t).lower == t.lower && t.parameters <= Resolve(t).parameters
    ensures |Resolve(t).parameters| == |t.parameters| + if InterleavedChannel(t.parameters).Some? then 0 else 1
  {
    if InterleavedChannel(t.parameters).None? {
      ChannelAppended(t.parameters, Pair(0, 1));
    }
  }

  /** `SessionSetup::from_rtsp_candidate_transports`.  `builderOk` and `streamOk[i]` say whether
      creating the muxer builder and adding stream `i` succeed.  The outcome is decided in the
      order the source checks: candidates, builder, target, streams. */
  method FromCandidates(candidates: seq<Candidate>, builderOk: bool, streamOk: seq<bool>) returns (r: Result<Setup, SetupError>)
    ensures r == Err(TransportNotSupported) <==> forall t <- candidates :: Unsuitable(t)
    ensures r == Err(DestinationInvalid) <==>
              builderOk && exists i: nat :: IsFirstSupported(candidates, i) && candidates[i].lower.None?
    ensures r.Ok? <==>
              builderOk && (exists i: nat :: IsFirstSupported(candidates, i) && candidates[i].lower.Some?) && false !in streamOk
    ensures r.Ok? ==>
              exists i: nat :: IsFirstSupported(candidates, i)
                && !Unsuitable(candidates[i]) && (forall j :: 0 <= j < i ==> Unsuitable(candidates[j]))
                && r.value.transport == Resolve(candidates[i]) && r.value.streams == |streamOk|
                && r.value.target == RtpTcp(Channels(candidates[i]).0, Channels(candidates[i]).1)
  {
    forall t ensures IsSupported(t) <==> !Unsuitable(t) {
      SupportedIff(t);
    }
    var i := 0;
    while i < |candidates| && !IsSupported(candidates[i])
      invariant i <= |candidates|
      invariant forall j :: 0 <= j < i ==> !IsSupported(candidates[j])
    {
      i := i + 1;
    }
    if i == |candidates| {
      return Err(TransportNotSupported);
    }
    assert IsFirstSupported(candidates, i);
    assert forall k: nat :: IsFirstSupported(candidates, k) ==> k == i;
    if !builderOk {
      return Err(Media);
    }
    ResolvedTarget(candidates[i]);
    var transport := Resolve(candidates[i]);
    var target := TargetOf(transport);
    if target.None? {
      return Err(DestinationInvalid);
    }
    var streams := 0;
    while streams < |streamOk|
      invariant streams <= |streamOk| && false !in streamOk[..streams]
    {
      if !streamOk[streams] {
        return Err(Media);
      }
      streams := streams + 1;
    }
    return Ok(Setup(transport, target.value, streams));
  }

  /** A session sends on the channels its candidate named first: a pair as given; a single one and the
      next, which is 0 after 255; or 0 and 1 if it named none. */
  lemma {:induction false} ChannelChoice(t: Candidate, i: nat)
    requires i < |t.parameters| ==> t.parameters[i].Interleaved?
    requires forall j :: 0 <= j < i && j < |t.parameters| ==> !t.parameters[j].Interleaved?
    ensures i >= |t.parameters| ==> Channels(t) == (0, 1)
    ensures i < |t.parameters| ==>
              match t.parameters[i].channels
              case Pair(rtp, rtcp) => Channels(t) == (rtp, rtcp)
              case Single(channel) => channel < 256 ==> Channels(t) == (channel, if channel == 255 then 0 else channel + 1)
  {
    if i < |t.parameters| {
      FirstChannel(t.parameters, i);
    } else {
      NoChannel(t.parameters);
    }
  }

  /** A UDP candidate, which no supported candidate is, would be sent to the destination and ports it
      names, with the next port for RTCP if it names one only. */
  lemma {:induction false} UdpTarget(t: Candidate, host: string, first: nat)
    requires t.lower == Some(Udp) && FirstDestination(t.parameters) == Some(host) && first < 0xffff
    ensures FirstClientPort(t.parameters) == Some((first, None)) ==> TargetOf(t) == Some(RtpUdp(host, first, first + 1))
    ensures forall second: nat :: FirstClientPort(t.parameters) == Some((first, Some(second))) ==> TargetOf(t) == Some(RtpUdp(host, first, second))
  {
  }
}
