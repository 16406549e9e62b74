/**
 * The IR receiver's LED display: LEDs 0 and 1 on P1.4 and P1.5, LEDs 2..7
 * on P2.0..P2.5. P1.6 (the oscilloscope monitor) and P1.7 (the IR detector
 * input) share P1OUT with LEDs 0 and 1 and are left alone.
 */
module ReceiverLeds {
  import opened Leds

  /** `LEDpinMap`; the display loop sends entries 0..1 to P1OUT. */
  const Map: LedTable := LedMap([0x10, 0x20, 0x01, 0x02, 0x04, 0x08, 0x10, 0x20], 2)

  /** P1OUT bits the display owns (BIT4, BIT5). */
  const P1Leds: bv8 := 0x30
  /** P2OUT bits the display owns (BIT0..BIT5). */
  const P2Leds: bv8 := 0x3F

  /**
   * `showByte(x)`: bits 0 and 1 of x appear on P1OUT bits 4 and 5, bits
   * 2..7 of x on P2OUT bits 0..5, and every other bit of both ports keeps
   * its value (in particular the oscilloscope pin P1.6).
   */
  function Show(ports: Ports, x: bv8): (r: Ports)
    ensures r.p1 & P1Leds == (x & 0x03) << 4
    ensures r.p2 & P2Leds == x >> 2
    ensures r.p1 & !P1Leds == ports.p1 & !P1Leds
    ensures r.p2 & !P2Leds == ports.p2 & !P2Leds
  {
    ShowByteUnrolled(Map, ports, x);
    ShowPort1(ports, x);
    ShowPort2(ports, x);
    ShowByte(Map, ports, x)
  }

  /** Reading the LEDs back after `showByte(x)`, LSB first, gives x. */
  lemma ShowReadBack(ports: Ports, x: bv8)
    ensures ReadBack(Map, Show(ports, x)) == x
  {
    ReadBackUnrolled(Map, Show(ports, x));
    ReadPorts(Show(ports, x));
  }

  /** Showing the same byte twice leaves the ports as showing it once. */
  lemma ShowIdempotent(ports: Ports, x: bv8)
    ensures Show(Show(ports, x), x) == Show(ports, x)
  {
  }

  /** The eight loop iterations' effect on P1OUT, in closed form. */
  lemma ShowPort1(ports: Ports, x: bv8)
    ensures Unrolled(Map, ports, x).p1 == (ports.p1 & !P1Leds) | ((x & 0x03) << 4)
  {
    Port1Pins(ports, x);
  }

  /** The eight loop iterations' effect on P2OUT, in closed form. */
  lemma ShowPort2(ports: Ports, x: bv8)
    ensures Unrolled(Map, ports, x).p2 == (ports.p2 & !P2Leds) | (x >> 2)
  {
    Port2Pins(ports, x);
  }

  /** The iterations that write P1OUT, LED by LED. */
  lemma Port1Pins(ports: Ports, x: bv8)
    ensures Unrolled(Map, ports, x).p1 ==
      SetPin(SetPin(ports.p1, 0x10, Bit(x, 0)), 0x20, Bit(x, 1))
  {
    assert Map.pins[0] == 0x10 && Map.pins[1] == 0x20;
  }

  /** The iterations that write P2OUT, LED by LED. */
  lemma Port2Pins(ports: Ports, x: bv8)
    ensures Unrolled(Map, ports, x).p2 ==
      var p2 := SetPin(SetPin(ports.p2, 0x01, Bit(x, 2)), 0x02, Bit(x, 3));
      var p4 := SetPin(SetPin(p2, 0x04, Bit(x, 4)), 0x08, Bit(x, 5));
      SetPin(SetPin(p4, 0x10, Bit(x, 6)), 0x20, Bit(x, 7))
  {
    assert Map.pins[2] == 0x01 && Map.pins[3] == 0x02 && Map.pins[4] == 0x04;
    assert Map.pins[5] == 0x08 && Map.pins[6] == 0x10 && Map.pins[7] == 0x20;
  }

  /** The LED pins, read back LSB first. */
  lemma ReadPorts(ports: Ports)
    ensures ReadUnrolled(Map, ports) == ((ports.p1 & P1Leds) >> 4) | ((ports.p2 & P2Leds) << 2)
  {
    assert Map.pins[0] == 0x10 && Map.pins[1] == 0x20 && Map.pins[2] == 0x01 && Map.pins[3] == 0x02;
    assert Map.pins[4] == 0x04 && Map.pins[5] == 0x08 && Map.pins[6] == 0x10 && Map.pins[7] == 0x20;
  }
}
