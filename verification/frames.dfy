/**
 * Whole frames as the transmitter sends them, and what the receiver makes
 * of them: a burst-and-pause pattern per bit, measured by the receiver from
 * one rising edge to the next.
 */
module Frames {
  import opened Leds
  import opened Pulses
  import opened BitSeq
  import opened Decoder
  import ReceiverLeds

  /** A 936 us start burst, measured from its falling to its rising edge. */
  const StartTime: Ticks := 1872
  /** A zero: 312 us pause, then a 312 us burst. */
  const ZeroTime: Ticks := 1248
  /** A one: 312 us pause, then a 624 us burst. */
  const OneTime: Ticks := 1872
  /** The stop signal: 312 us pause, then a 936 us burst; its length is not checked. */
  const StopTime: Ticks := 2496

  function BitTime(one: bool): (t: Ticks)
    ensures DataSymbol(t) == (if one then Pulses.One else Pulses.Zero)
  {
    if one then OneTime else ZeroTime
  }

  /** The measured times of a byte's data bits, in transmission order. */
  function ByteTimes(b: bv8): (ts: seq<Ticks>)
    ensures |ts| == 8 && AllValid(ts) && DataBits(ts) == ByteBits(b)
  {
    var bits := ByteBits(b);
    var ts := seq(8, i requires 0 <= i < 8 => BitTime(bits[i]));
    assert DataBits(ts) == bits;
    ts
  }

  /** The arming edge, the end of the start burst and the eight data edges. */
  function FrameBody(b: bv8): seq<Event>
  {
    [Edge(0), Edge(StartTime)] + DataEdges(ByteTimes(b))
  }

  /** A complete frame: its body and the stop edge. */
  function Frame(b: bv8): seq<Event>
  {
    FrameBody(b) + [Edge(StopTime)]
  }

  /**
   * From idle, the body of a frame leaves the byte in the accumulator with
   * all ten edges counted and nothing else changed.
   */
  lemma BodyDecodes(s: Receiver, b: bv8)
    requires Idle(s)
    ensures Run(s, FrameBody(b)).bitCounter == 10
    ensures Run(s, FrameBody(b)).rxData == b
    ensures Run(s, FrameBody(b)).validBytes == s.validBytes
    ensures Inv(Run(s, FrameBody(b)))
  {
    var ts := ByteTimes(b);
    var started := Run(s, [Edge(0), Edge(StartTime)]);
    var r := Run(s, FrameBody(b));
    Started(s);
    assert r == Run(started, DataEdges(ts)) by {
      RunConcat(s, [Edge(0), Edge(StartTime)], DataEdges(ts));
    }
    ByteAssembled(started, ts);
    ByteBitsValue(b);
    ByteOfValue(r.rxData, b);
    IdleInv(s);
    RunInv(s, FrameBody(b));
  }

  /** The arming edge and a nominal start burst make the decoder ready for data. */
  lemma Started(s: Receiver)
    requires Idle(s)
    ensures Run(s, [Edge(0), Edge(StartTime)]).bitCounter == 2
    ensures Run(s, [Edge(0), Edge(StartTime)]).rxData == 0
    ensures Run(s, [Edge(0), Edge(StartTime)]).validBytes == s.validBytes
  {
    var armed := Step(s, Edge(0));
    assert armed == Arm(s);
    var started := Step(armed, Edge(StartTime));
    assert started == StartBit(armed, StartTime);
    assert StartSymbol(StartTime) == Start;
    assert [Edge(0), Edge(StartTime)][1..] == [Edge(StartTime)];
    assert Run(s, [Edge(0), Edge(StartTime)]) == Run(armed, [Edge(StartTime)]);
    assert Run(armed, [Edge(StartTime)]) == Run(started, []);
  }

  /**
   * Frame round trip: from idle, a whole frame shows its byte on the LEDs,
   * counts it, and leaves the decoder idle again.
   */
  lemma FrameDelivers(s: Receiver, b: bv8)
    requires Idle(s)
    ensures Idle(Run(s, Frame(b)))
    ensures ReadBack(ReceiverLeds.Map, Run(s, Frame(b)).ports) == b
    ensures Run(s, Frame(b)).validBytes == s.validBytes + 1
  {
    BodyDecodes(s, b);
    RunAppend(s, FrameBody(b), Edge(StopTime));
  }

  /**
   * A frame as the firmware sees it: the main loop polls the accumulator
   * between the interrupts, here after the eighth data bit and after the
   * stop edge.
   */
  function PolledFrame(b: bv8): seq<Event>
  {
    FrameBody(b) + [Poll, Edge(StopTime), Poll]
  }

  /** For any byte other than the sentinel the polls change nothing. */
  lemma PolledFrameDelivers(s: Receiver, b: bv8)
    requires Idle(s) && b != Sentinel
    ensures Run(s, PolledFrame(b)) == Run(s, Frame(b))
    ensures Idle(Run(s, PolledFrame(b)))
    ensures ReadBack(ReceiverLeds.Map, Run(s, PolledFrame(b)).ports) == b
    ensures Run(s, PolledFrame(b)).validBytes == s.validBytes + 1
  {
    var body := Run(s, FrameBody(b));
    BodyDecodes(s, b);
    RunConcat(s, FrameBody(b), [Poll, Edge(StopTime), Poll]);
    assert body.rxData != Sentinel;
    assert Step(body, Poll) == SelfTest(body);
    assert SelfTest(body) == body;
    var stopped := Step(body, Edge(StopTime));
    assert stopped == Complete(body);
    assert [Poll, Edge(StopTime), Poll][1..] == [Edge(StopTime), Poll];
    assert [Edge(StopTime), Poll][1..] == [Poll];
    assert Run(body, [Poll, Edge(StopTime), Poll]) == Run(body, [Edge(StopTime), Poll]);
    assert Run(body, [Edge(StopTime), Poll]) == Run(stopped, [Poll]);
    assert Run(stopped, [Poll]) == Run(Step(stopped, Poll), []);
    FrameDelivers(s, b);
    RunAppend(s, FrameBody(b), Edge(StopTime));
  }

  /** The sentinel frame up to the main loop's next poll. */
  function SentinelEvents(): seq<Event>
  {
    FrameBody(Sentinel) + [Poll]
  }

  /** The sentinel frame: the poll after its last data bit runs the self-test. */
  lemma SentinelFrame(s: Receiver)
    requires Idle(s)
    ensures Idle(Run(s, SentinelEvents()))
    ensures Run(s, SentinelEvents()).validBytes == 0
    ensures ReadBack(ReceiverLeds.Map, Run(s, SentinelEvents()).ports) as int ==
      255 - LowByte(s.validBytes) as int
  {
    BodyDecodes(s, Sentinel);
    RunAppend(s, FrameBody(Sentinel), Poll);
  }

  /** A batch of frames, each polled as the main loop does. */
  function Batch(bs: seq<bv8>): seq<Event>
    decreases |bs|
  {
    if |bs| == 0 then [] else PolledFrame(bs[0]) + Batch(bs[1..])
  }

  /** Every frame of a batch of ordinary bytes is counted once. */
  lemma {:induction false} BatchCounts(s: Receiver, bs: seq<bv8>)
    requires Idle(s)
    requires forall i :: 0 <= i < |bs| ==> bs[i] != Sentinel
    requires LowByte(s.validBytes) as int + |bs| <= 255
    ensures Idle(Run(s, Batch(bs)))
    ensures LowByte(Run(s, Batch(bs)).validBytes) as int == LowByte(s.validBytes) as int + |bs|
    decreases |bs|
  {
    if |bs| > 0 {
      var next := Run(s, PolledFrame(bs[0]));
      PolledFrameDelivers(s, bs[0]);
      RunConcat(s, PolledFrame(bs[0]), Batch(bs[1..]));
      CountOne(s.validBytes);
      BatchCounts(next, bs[1..]);
    }
  }

  /**
   * The self-test report: after a self-test has cleared the counter, a
   * batch in which the frames `bs` arrived intact, closed by the sentinel
   * frame, leaves the LEDs showing 255 - |bs|, the number of the 255
   * ordinary frames that went missing.
   */
  lemma BatchReport(s: Receiver, bs: seq<bv8>)
    requires Idle(s) && s.validBytes == 0
    requires forall i :: 0 <= i < |bs| ==> bs[i] != Sentinel
    requires |bs| <= 255
    ensures Idle(Run(s, Batch(bs) + SentinelEvents()))
    ensures ReadBack(ReceiverLeds.Map, Run(s, Batch(bs) + SentinelEvents()).ports) as int == 255 - |bs|
  {
    var mid := Run(s, Batch(bs));
    BatchCounts(s, bs);
    RunConcat(s, Batch(bs), SentinelEvents());
    SentinelFrame(mid);
  }
}
