/** Frames, RTP/RTCP messages, and the contract assumed of the RTP muxer.

    The muxer itself lives in a submodule that is not part of this model.  What the
    session relies on is stated here: muxing one frame yields a finite list of RTP and
    RTCP messages (or an error), the RTP ones numbered consecutively modulo 2^16. */
module Media {

  const SEQ_MODULUS: nat := 0x1_0000

  type Seq16 = n: nat | n < 0x1_0000

  /** An encoded video frame; all a session ever looks at is the keyframe flag. */
  datatype Frame = Frame(key: bool)

  datatype Kind = RtpKind | RtcpKind

  datatype Payload = Rtp(number: Seq16) | Rtcp

  /** What the muxer does with one frame.  After an error its counter may be anywhere. */
  datatype MuxResult = Muxed(kinds: seq<Kind>) | MuxFailed(counter: Seq16)

  /** A 16-bit increment. */
  function Next(s: Seq16): Seq16 {
    if s == 0xffff then 0 else s + 1
  }

  /** `n` increments. */
  function Advance(s: Seq16, n: nat): Seq16 {
    if n == 0 then s else Next(Advance(s, n - 1))
  }

  function RtpCount(kinds: seq<Kind>): nat {
    if kinds == [] then 0
    else RtpCount(kinds[..|kinds| - 1]) + if kinds[|kinds| - 1].RtpKind? then 1 else 0
  }

  /** The messages of one frame when the muxer's counter stands at `first`. */
  function Number(first: Seq16, kinds: seq<Kind>): (payloads: seq<Payload>)
    ensures |payloads| == |kinds|
  {
    seq(|kinds|, i requires 0 <= i < |kinds| =>
      if kinds[i].RtpKind? then Rtp(Advance(first, RtpCount(kinds[..i]))) else Rtcp)
  }

  /** The muxer's counter after a frame. */
  function CounterAfter(first: Seq16, mux: MuxResult): Seq16 {
    match mux
    case Muxed(kinds) => Advance(first, RtpCount(kinds))
    case MuxFailed(counter) => counter
  }

  lemma {:induction false} AdvanceTwice(s: Seq16, m: nat, n: nat)
    ensures Advance(Advance(s, m), n) == Advance(s, m + n)
  {
    if n > 0 {
      AdvanceTwice(s, m, n - 1);
    }
  }

  /** Counting is addition modulo 2^16, as RTP sequence numbers are defined. */
  lemma {:induction false} AdvanceIsModular(s: Seq16, n: nat)
    ensures Advance(s, n) == (s + n) % SEQ_MODULUS
  {
    if n > 0 {
      AdvanceIsModular(s, n - 1);
    }
  }
}
