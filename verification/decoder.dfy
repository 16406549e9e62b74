/**
 * The IR frame decoder of the receiver firmware: the edge interrupt
 * (`Port_1`), the timer timeout interrupt (`Timer_A`), the shared `reset`
 * and the main loop's self-test, each as one atomic step on an immutable
 * state record.
 *
 * A frame is counted in edges: the arming edge (bitCounter 0), the end of
 * the start pulse (1), eight data edges (2..9) and the stop edge (10). Data
 * bits are shifted into `rxData` from the top, so the first bit received
 * ends up as bit 0.
 */
module Decoder {
  import opened Leds
  import opened Pulses
  import opened BitSeq
  import ReceiverLeds

  /** P1.6 mirrors the decoder's progress for an oscilloscope. */
  const OscopePin: bv8 := 0x40

  /** The byte value that ends a self-test batch. */
  const Sentinel: bv8 := 255

  /**
   * The decoder's globals and the registers it writes. `risingEdge` is the
   * edge polarity selected in P1IES (false: falling edge), `timerIrq` is
   * CCIE in TA0CCTL0, `ports` are P1OUT and P2OUT, and `validBytes` is the
   * 16-bit `int` counter of completed frames.
   */
  datatype Receiver = Receiver(
    rxData: bv8,
    bitCounter: nat,
    risingEdge: bool,
    timerIrq: bool,
    ports: Ports,
    validBytes: bv16)

  /**
   * What can happen next: an edge on the IR input with the timer count
   * read at that edge, the timer reaching TA0CCR0, or one pass of the
   * main loop.
   */
  datatype Event = Edge(pulseTime: Ticks) | Timeout | Poll

  /** Waiting for the falling edge that starts a frame, with nothing kept. */
  predicate Idle(s: Receiver)
  {
    s.rxData == 0 && s.bitCounter == 0 && !s.risingEdge && !s.timerIrq
  }

  /** The state after power-up and `initIO`: oscilloscope and LED pins low. */
  function Init(ports: Ports): (s: Receiver)
    ensures Idle(s) && Inv(s) && s.validBytes == 0
    ensures s.ports.p1 & (OscopePin | ReceiverLeds.P1Leds) == 0
    ensures s.ports.p2 & ReceiverLeds.P2Leds == 0
  {
    Receiver(0, 0, false, false,
             Ports(ports.p1 & !(OscopePin | ReceiverLeds.P1Leds), ports.p2 & !ReceiverLeds.P2Leds),
             0)
  }

  /**
   * `reset()`: timer interrupt off, falling-edge polarity, accumulator and
   * edge count cleared. Ports and the byte counter are untouched.
   */
  function Reset(s: Receiver): (r: Receiver)
    ensures Idle(r)
    ensures r.ports == s.ports && r.validBytes == s.validBytes
    ensures Idle(s) ==> r == s
  {
    s.(timerIrq := false, risingEdge := false, rxData := 0, bitCounter := 0)
  }

  /**
   * An edge that only touches the monitor: P2OUT and every P1OUT bit
   * other than P1.6 (the two receiver LEDs and the detector pin) keep
   * their values, so the LEDs go on showing the last byte received.
   */
  predicate MonitorOnly(before: Ports, after: Ports)
  {
    after.p2 == before.p2 && after.p1 & !OscopePin == before.p1 & !OscopePin
  }

  /** `P1OUT ^= oscopePin`. */
  function ToggleOscope(ports: Ports): Ports
  {
    ports.(p1 := ports.p1 ^ OscopePin)
  }

  /** The low byte of the counter, `(unsigned char)validBytes`. */
  function LowByte(v: bv16): bv8
  {
    (v & 0xFF) as bv8
  }

  /** Counting one more byte adds one to the low byte, short of wrapping. */
  lemma CountOne(v: bv16)
    requires LowByte(v) < 255
    ensures LowByte(v + 1) as int == LowByte(v) as int + 1
  {
    assert LowByte(v + 1) == LowByte(v) + 1;
  }

  /**
   * `rxData >>= 1`, then `rxData |= 0x80` for a one: the new bit enters at
   * the top and every earlier bit moves one place down.
   */
  function ShiftIn(rx: bv8, one: bool): (r: bv8)
    ensures one ==> r as int == rx as int / 2 + 128
    ensures !one ==> r as int == rx as int / 2
  {
    var shifted := rx >> 1;
    if one then ShiftInOne(rx); shifted | 0x80 else ShiftInZero(rx); shifted
  }

  /** The first (falling) edge: switch to rising edges and start timing. */
  function Arm(s: Receiver): (r: Receiver)
    ensures r.bitCounter == s.bitCounter + 1
    ensures r.risingEdge && r.timerIrq
    ensures r.rxData == s.rxData && r.validBytes == s.validBytes
    ensures MonitorOnly(s.ports, r.ports)
  {
    s.(ports := ToggleOscope(s.ports), risingEdge := true,
       bitCounter := s.bitCounter + 1, timerIrq := true)
  }

  /** The end of the start pulse: accept it or start over. */
  function StartBit(s: Receiver, pulseTime: Ticks): (r: Receiver)
    ensures r.bitCounter == s.bitCounter + 1 <==> StartSymbol(pulseTime) == Start
    ensures StartSymbol(pulseTime) == Invalid ==> r == Reset(s)
    ensures r.rxData == s.rxData || Idle(r)
    ensures r.validBytes == s.validBytes
    ensures MonitorOnly(s.ports, r.ports)
  {
    if StartSymbol(pulseTime) == Invalid then Reset(s)
    else s.(ports := ToggleOscope(s.ports), bitCounter := s.bitCounter + 1)
  }

  /**
   * A data edge: the accumulator is shifted and the monitor pin toggled
   * first; a one then enters at bit 7, a zero leaves it clear, and a pulse
   * too short for either abandons the frame.
   */
  function DataBit(s: Receiver, pulseTime: Ticks): (r: Receiver)
    ensures r.bitCounter == s.bitCounter + 1 <==> DataSymbol(pulseTime) != Invalid
    ensures DataSymbol(pulseTime) == Invalid ==> Idle(r)
    ensures DataSymbol(pulseTime) != Invalid ==>
      r.rxData == ShiftIn(s.rxData, DataSymbol(pulseTime) == One)
    ensures r.validBytes == s.validBytes
    ensures MonitorOnly(s.ports, r.ports)
  {
    var ports := ToggleOscope(s.ports);
    var symbol := DataSymbol(pulseTime);
    if symbol == Invalid then Reset(s.(ports := ports))
    else s.(rxData := ShiftIn(s.rxData, symbol == One), ports := ports,
            bitCounter := s.bitCounter + 1)
  }

  /** The stop edge: show the byte, count it, start over. */
  function Complete(s: Receiver): (r: Receiver)
    ensures Idle(r)
    ensures r.validBytes == s.validBytes + 1
    ensures ReadBack(ReceiverLeds.Map, r.ports) == s.rxData
    ensures r.ports == ReceiverLeds.Show(s.ports, s.rxData)
  {
    ReceiverLeds.ShowReadBack(s.ports, s.rxData);
    Reset(s.(ports := ReceiverLeds.Show(s.ports, s.rxData), validBytes := s.validBytes + 1))
  }

  /**
   * `Port_1`: one edge on the IR input, `pulseTime` being TA0R at that
   * edge. The edge count selects the handler; on the stop edge the pulse
   * time is not looked at.
   */
  function OnEdge(s: Receiver, pulseTime: Ticks): (r: Receiver)
    ensures r.bitCounter == s.bitCounter + 1 || Idle(r)
    ensures s.bitCounter == 0 ==> r.bitCounter == 1 && r.risingEdge && r.timerIrq
    ensures s.bitCounter == 10 ==> Idle(r) && ReadBack(ReceiverLeds.Map, r.ports) == s.rxData
    ensures r.validBytes == if s.bitCounter == 10 then s.validBytes + 1 else s.validBytes
  {
    if s.bitCounter == 0 then Arm(s)
    else if s.bitCounter == 10 then Complete(s)
    else if s.bitCounter == 1 then StartBit(s, pulseTime)
    else DataBit(s, pulseTime)
  }

  /**
   * What an edge does to the output ports: the stop edge shows the byte
   * received, every other edge at most toggles the monitor pin.
   */
  lemma EdgePorts(s: Receiver, pulseTime: Ticks)
    ensures s.bitCounter == 10 ==> OnEdge(s, pulseTime).ports == ReceiverLeds.Show(s.ports, s.rxData)
    ensures s.bitCounter != 10 ==> MonitorOnly(s.ports, OnEdge(s, pulseTime).ports)
  {
  }

  /**
   * Whether the edge handler clears TA0 for the next measurement: on the
   * arming edge, an accepted start pulse and an accepted data bit.
   */
  predicate RestartsTimer(s: Receiver, pulseTime: Ticks)
  {
    || s.bitCounter == 0
    || (s.bitCounter == 1 && StartSymbol(pulseTime) == Start)
    || (s.bitCounter !in {0, 1, 10} && DataSymbol(pulseTime) != Invalid)
  }

  /**
   * The main loop's self-test: once the accumulator holds the sentinel,
   * show how many bytes of the batch were missed, clear the counter and
   * restart the decoder.
   */
  function SelfTest(s: Receiver): (r: Receiver)
    ensures s.rxData == Sentinel ==> Idle(r) && r.validBytes == 0
    ensures s.rxData == Sentinel ==>
      ReadBack(ReceiverLeds.Map, r.ports) as int == 255 - LowByte(s.validBytes) as int
    ensures s.rxData == Sentinel ==>
      r.ports == ReceiverLeds.Show(s.ports, 255 - LowByte(s.validBytes))
    ensures s.rxData != Sentinel ==> r == s
  {
    if s.rxData == Sentinel then
      var missed := 255 - LowByte(s.validBytes);
      ReceiverLeds.ShowReadBack(s.ports, missed);
      ByteComplement(LowByte(s.validBytes));
      Reset(s.(ports := ReceiverLeds.Show(s.ports, missed), validBytes := 0))
    else s
  }

  /** One atomic step of the firmware. */
  function Step(s: Receiver, e: Event): Receiver
  {
    match e
    case Edge(t) => OnEdge(s, t)
    case Timeout => Reset(s)
    case Poll => SelfTest(s)
  }

  /** The state after a sequence of events, first event first. */
  function Run(s: Receiver, es: seq<Event>): Receiver
    decreases |es|
  {
    if |es| == 0 then s else Run(Step(s, es[0]), es[1..])
  }

  /** `Timer_A`: no edge came within TMAX ticks; the frame is abandoned. */
  lemma TimeoutResets(s: Receiver)
    ensures Idle(Step(s, Timeout))
    ensures Step(Step(s, Timeout), Timeout) == Step(s, Timeout)
    ensures Step(s, Timeout).ports == s.ports && Step(s, Timeout).validBytes == s.validBytes
  {
  }

  /**
   * The timer is cleared for a new measurement exactly on the edges that
   * advance the frame; every other edge returns the decoder to idle.
   */
  lemma EdgeProgress(s: Receiver, pulseTime: Ticks)
    ensures OnEdge(s, pulseTime).bitCounter == s.bitCounter + 1 <==> RestartsTimer(s, pulseTime)
    ensures !RestartsTimer(s, pulseTime) ==> Idle(OnEdge(s, pulseTime))
  {
  }

  /** Mask of the low (10 - bitCounter) bits, the ones no data bit has reached yet. */
  function LowMask(bitCounter: nat): bv8
    requires 2 <= bitCounter <= 10
  {
    (0xFF as bv8) >> (bitCounter - 2)
  }

  /**
   * The states the decoder can reach: at most ten edges counted, the edge
   * polarity and the timer interrupt tell whether a frame is under way,
   * and the accumulator holds nothing below the bits received so far.
   */
  predicate Inv(s: Receiver)
  {
    && s.bitCounter <= 10
    && s.risingEdge == (s.bitCounter >= 1)
    && s.timerIrq == (s.bitCounter >= 1)
    && (s.bitCounter <= 1 ==> s.rxData == 0)
    && (s.bitCounter >= 2 ==> s.rxData & LowMask(s.bitCounter) == 0)
  }

  lemma IdleInv(s: Receiver)
    requires Idle(s)
    ensures Inv(s)
  {
  }

  /** One more data bit keeps the unreached bits clear. */
  lemma ShiftInMask(rx: bv8, bitCounter: nat, one: bool)
    requires 2 <= bitCounter < 10
    requires rx & LowMask(bitCounter) == 0
    ensures ShiftIn(rx, one) & LowMask(bitCounter + 1) == 0
  {
    assert LowMask(bitCounter + 1) == LowMask(bitCounter) >> 1;
  }

  /** Every step keeps the invariant. */
  lemma StepInv(s: Receiver, e: Event)
    requires Inv(s)
    ensures Inv(Step(s, e))
  {
    match e
    case Edge(t) => EdgeInv(s, t);
    case Timeout => IdleInv(Reset(s));
    case Poll => if s.rxData == Sentinel { IdleInv(SelfTest(s)); }
  }

  lemma EdgeInv(s: Receiver, pulseTime: Ticks)
    requires Inv(s)
    ensures Inv(OnEdge(s, pulseTime))
  {
    if s.bitCounter == 0 {
      assert Inv(Arm(s));
    } else if s.bitCounter == 10 {
      IdleInv(Complete(s));
    } else if s.bitCounter == 1 {
      assert Inv(StartBit(s, pulseTime));
    } else {
      DataInv(s, pulseTime);
    }
  }

  lemma DataInv(s: Receiver, pulseTime: Ticks)
    requires Inv(s) && 2 <= s.bitCounter < 10
    ensures Inv(DataBit(s, pulseTime))
  {
    if DataSymbol(pulseTime) == Invalid {
      IdleInv(DataBit(s, pulseTime));
    } else {
      ShiftInMask(s.rxData, s.bitCounter, DataSymbol(pulseTime) == One);
    }
  }

  lemma {:induction false} RunInv(s: Receiver, es: seq<Event>)
    requires Inv(s)
    ensures Inv(Run(s, es))
    decreases |es|
  {
    if |es| > 0 {
      StepInv(s, es[0]);
      RunInv(Step(s, es[0]), es[1..]);
    }
  }

  /**
   * The self-test sentinel can only be in the accumulator once all eight
   * data bits are in: before that some low bit is still clear.
   */
  lemma SentinelOnlyWhenFull(s: Receiver)
    requires Inv(s) && s.rxData == Sentinel
    ensures s.bitCounter == 10
  {
    if 2 <= s.bitCounter < 10 {
      MaskHasBitZero(s.bitCounter);
    }
  }

  /**
   * The main loop's poll is a no-op in every reachable state except a
   * completed frame whose byte is the sentinel: mid-frame, the accumulator
   * cannot hold 255.
   */
  lemma PollIdle(s: Receiver)
    requires Inv(s) && !(s.bitCounter == 10 && s.rxData == Sentinel)
    ensures Step(s, Poll) == s
  {
    if s.rxData == Sentinel {
      SentinelOnlyWhenFull(s);
    }
  }

  /** Until the last data bit is in, bit 0 is among the unreached bits. */
  lemma MaskHasBitZero(bitCounter: nat)
    requires 2 <= bitCounter < 10
    ensures LowMask(bitCounter) & 1 == 1
  {
  }

  /** Running events one after the other. */
  lemma {:induction false} RunAppend(s: Receiver, es: seq<Event>, e: Event)
    ensures Run(s, es + [e]) == Step(Run(s, es), e)
    decreases |es|
  {
    if |es| == 0 {
      assert es + [e] == [e];
    } else {
      assert (es + [e])[1..] == es[1..] + [e];
      RunAppend(Step(s, es[0]), es[1..], e);
    }
  }

  lemma {:induction false} RunConcat(s: Receiver, xs: seq<Event>, ys: seq<Event>)
    ensures Run(s, xs + ys) == Run(Run(s, xs), ys)
    decreases |xs|
  {
    if |xs| == 0 {
      assert xs + ys == ys;
    } else {
      assert (xs + ys)[1..] == xs[1..] + ys;
      RunConcat(Step(s, xs[0]), xs[1..], ys);
    }
  }

  /** One edge event per measured time. */
  function DataEdges(ts: seq<Ticks>): (es: seq<Event>)
    ensures |es| == |ts| && forall i :: 0 <= i < |ts| ==> es[i] == Edge(ts[i])
  {
    seq(|ts|, i requires 0 <= i < |ts| => Edge(ts[i]))
  }

  /** The bit each measured time stands for. */
  function DataBits(ts: seq<Ticks>): (bits: seq<bool>)
    ensures |bits| == |ts| && forall i :: 0 <= i < |ts| ==> (bits[i] <==> DataSymbol(ts[i]) == One)
  {
    seq(|ts|, i requires 0 <= i < |ts| => DataSymbol(ts[i]) == One)
  }

  /** No time in the sequence aborts the frame. */
  predicate AllValid(ts: seq<Ticks>)
  {
    forall i :: 0 <= i < |ts| ==> DataSymbol(ts[i]) != Invalid
  }

  /**
   * LSB-first assembly: from an accepted start pulse, k valid data edges
   * leave bit (8 - k + j) of the accumulator equal to the j-th bit received
   * and everything below clear; after all eight, the first bit received is
   * bit 0.
   */
  lemma {:induction false} DataRun(s: Receiver, ts: seq<Ticks>)
    requires s.bitCounter == 2 && s.rxData == 0
    requires |ts| <= 8 && AllValid(ts)
    ensures Accumulated(Run(s, DataEdges(ts)), s, |ts|, Value(DataBits(ts)))
    decreases |ts|
  {
    if |ts| == 0 {
      assert DataEdges(ts) == [];
    } else {
      var k := |ts| - 1;
      var front, t := ts[..k], ts[k];
      var v := Value(DataBits(front));
      DataRun(s, front);
      var before := Run(s, DataEdges(front));
      SplitLast(ts);
      RunAppend(s, DataEdges(front), Edge(t));
      ValueAppend(DataBits(front), DataSymbol(t) == One);
      DataAppend(s, before, v, k, t);
    }
  }

  /**
   * `r` is `s` after k data edges whose bits denote v: the bits sit at the
   * top of the accumulator and the rest of the state is as it was.
   */
  predicate Accumulated(r: Receiver, s: Receiver, k: nat, v: nat)
    requires k <= 8
  {
    && r.bitCounter == s.bitCounter + k
    && r.rxData as int == Pow2(8 - k) * v
    && r.validBytes == s.validBytes
    && r.risingEdge == s.risingEdge
    && r.timerIrq == s.timerIrq
  }

  /** One data edge, in terms of the value of the bits received before it. */
  lemma DataAppend(s: Receiver, before: Receiver, v: nat, k: nat, t: Ticks)
    requires k < 8 && s.bitCounter == 2 && DataSymbol(t) != Invalid
    requires Accumulated(before, s, k, v)
    ensures Accumulated(Step(before, Edge(t)), s, k + 1,
                        v + (if DataSymbol(t) == One then Pow2(k) else 0))
  {
    DataStep(before, t);
    ShiftInValue(before.rxData as int, v, k, DataSymbol(t) == One);
  }

  /** A valid data edge in the middle of a frame shifts its bit in and counts it. */
  lemma DataStep(s: Receiver, pulseTime: Ticks)
    requires 2 <= s.bitCounter < 10 && DataSymbol(pulseTime) != Invalid
    ensures Step(s, Edge(pulseTime)) ==
      s.(rxData := ShiftIn(s.rxData, DataSymbol(pulseTime) == One),
         ports := ToggleOscope(s.ports), bitCounter := s.bitCounter + 1)
  {
  }

  lemma SplitLast(ts: seq<Ticks>)
    requires |ts| > 0
    ensures DataEdges(ts) == DataEdges(ts[..|ts| - 1]) + [Edge(ts[|ts| - 1])]
    ensures DataBits(ts) == DataBits(ts[..|ts| - 1]) + [DataSymbol(ts[|ts| - 1]) == One]
  {
  }

  /** The arithmetic of one shift-in step on the LSB-first value. */
  lemma ShiftInValue(rx: int, v: nat, k: nat, one: bool)
    requires k < 8 && rx == Pow2(8 - k) * v
    ensures rx / 2 + (if one then 128 else 0) == Pow2(7 - k) * (v + (if one then Pow2(k) else 0))
  {
    var p, q := Pow2(7 - k), Pow2(k);
    assert Pow2(8 - k) == 2 * p;
    Pow2Add(7 - k, k);
    assert Pow2(7) == 128;
    ShiftArith(rx, v, p, q, one);
  }

  lemma ShiftArith(rx: int, v: int, p: int, q: int, one: bool)
    requires rx == (2 * p) * v && p * q == 128
    ensures rx / 2 + (if one then 128 else 0) == p * (v + (if one then q else 0))
  {
    assert rx == 2 * (p * v);
    assert p * (v + q) == p * v + p * q;
  }

  /** From an accepted start pulse, eight valid data edges deliver the byte LSB first. */
  lemma ByteAssembled(s: Receiver, ts: seq<Ticks>)
    requires s.bitCounter == 2 && s.rxData == 0
    requires |ts| == 8 && AllValid(ts)
    ensures Run(s, DataEdges(ts)).bitCounter == 10
    ensures Run(s, DataEdges(ts)).rxData as int == Value(DataBits(ts))
    ensures Run(s, DataEdges(ts)).validBytes == s.validBytes
  {
    DataRun(s, ts);
    assert Pow2(0) == 1;
  }
}
