/**
 * The LED display routine shared by both firmware images: `showByte` walks
 * the eight bits of a byte, least significant first, and drives one output
 * pin per bit. Which pin belongs to which bit is a fixed table of pin masks;
 * the first `onPort1` entries are pins of P1OUT, the rest pins of P2OUT.
 */
module Leds {

  /** The two 8-bit output registers the display touches. */
  datatype Ports = Ports(p1: bv8, p2: bv8)

  /** A display's pin table: one single-bit mask per LED, LED 0 first. */
  datatype LedMap = LedMap(pins: seq<bv8>, onPort1: nat)

  /** A table with one entry per LED. */
  type LedTable = m: LedMap | |m.pins| == 8 witness LedMap([0, 0, 0, 0, 0, 0, 0, 0], 0)

  /** Bit k of a byte. */
  predicate Bit(b: bv8, k: nat)
    requires k < 8
  {
    (b >> k) & 1 == 1
  }

  /** `P |= mask` when `on`, `P &= ~mask` otherwise. */
  function SetPin(port: bv8, mask: bv8, on: bool): bv8
  {
    if on then port | mask else port & !mask
  }

  /** The port update of one loop iteration: LED i's pin set high or low. */
  function DriveLed(m: LedTable, i: nat, ports: Ports, on: bool): Ports
    requires i < 8
  {
    if i < m.onPort1 then ports.(p1 := SetPin(ports.p1, m.pins[i], on))
    else ports.(p2 := SetPin(ports.p2, m.pins[i], on))
  }

  /**
   * Iterations i..7 of the display loop: iteration i looks at the lowest
   * bit of the (already shifted) byte `x`, drives LED i from it, and shifts
   * `x` right by one.
   */
  function ShowFrom(m: LedTable, i: nat, ports: Ports, x: bv8): Ports
    requires i <= 8
    decreases 8 - i
  {
    if i == 8 then ports
    else ShowFrom(m, i + 1, DriveLed(m, i, ports, x & 1 == 1), x >> 1)
  }

  /** `showByte(x)` on the display described by `m`. */
  function ShowByte(m: LedTable, ports: Ports, x: bv8): Ports
  {
    ShowFrom(m, 0, ports, x)
  }

  /** Whether LED i is lit: its pin is high on its port. */
  predicate LedOn(m: LedTable, ports: Ports, i: nat)
    requires i < 8
  {
    var port := if i < m.onPort1 then ports.p1 else ports.p2;
    port & m.pins[i] != 0
  }

  /** The byte LEDs i..7 show, read LSB first (LED i gives bit 0). */
  function ReadFrom(m: LedTable, ports: Ports, i: nat): bv8
    requires i <= 8
    decreases 8 - i
  {
    if i == 8 then 0
    else (ReadFrom(m, ports, i + 1) << 1) | LedValue(m, ports, i)
  }

  /** The byte the display shows: LED k lit means bit k set. */
  function ReadBack(m: LedTable, ports: Ports): bv8
  {
    ReadFrom(m, ports, 0)
  }

  /** The eight iterations of the display loop written out one by one. */
  function Unrolled(m: LedTable, ports: Ports, x: bv8): Ports
  {
    var y1 := x >> 1; var y2 := y1 >> 1; var y3 := y2 >> 1; var y4 := y3 >> 1;
    var y5 := y4 >> 1; var y6 := y5 >> 1; var y7 := y6 >> 1;
    var q1 := DriveLed(m, 0, ports, x & 1 == 1);
    var q2 := DriveLed(m, 1, q1, y1 & 1 == 1);
    var q3 := DriveLed(m, 2, q2, y2 & 1 == 1);
    var q4 := DriveLed(m, 3, q3, y3 & 1 == 1);
    var q5 := DriveLed(m, 4, q4, y4 & 1 == 1);
    var q6 := DriveLed(m, 5, q5, y5 & 1 == 1);
    var q7 := DriveLed(m, 6, q6, y6 & 1 == 1);
    DriveLed(m, 7, q7, y7 & 1 == 1)
  }

  lemma ShowByteUnrolled(m: LedTable, ports: Ports, x: bv8)
    ensures ShowByte(m, ports, x) == Unrolled(m, ports, x)
  {
    var y2 := (x >> 1) >> 1; var y4 := (y2 >> 1) >> 1; var y6 := (y4 >> 1) >> 1;
    var q2 := DriveLed(m, 1, DriveLed(m, 0, ports, x & 1 == 1), (x >> 1) & 1 == 1);
    var q4 := DriveLed(m, 3, DriveLed(m, 2, q2, y2 & 1 == 1), (y2 >> 1) & 1 == 1);
    var q6 := DriveLed(m, 5, DriveLed(m, 4, q4, y4 & 1 == 1), (y4 >> 1) & 1 == 1);
    var q8 := DriveLed(m, 7, DriveLed(m, 6, q6, y6 & 1 == 1), (y6 >> 1) & 1 == 1);
    ShowFromTwoSteps(m, 0, ports, x);
    ShowFromTwoSteps(m, 2, q2, y2);
    ShowFromTwoSteps(m, 4, q4, y4);
    ShowFromTwoSteps(m, 6, q6, y6);
    assert ShowFrom(m, 8, q8, (y6 >> 1) >> 1) == q8;
  }

  /** Two iterations of the display loop. */
  lemma ShowFromTwoSteps(m: LedTable, i: nat, ports: Ports, x: bv8)
    requires i + 2 <= 8
    ensures ShowFrom(m, i, ports, x) ==
      var once := DriveLed(m, i, ports, x & 1 == 1);
      ShowFrom(m, i + 2, DriveLed(m, i + 1, once, (x >> 1) & 1 == 1), (x >> 1) >> 1)
  {
  }

  /** 1 when LED k is lit, 0 otherwise. */
  function LedValue(m: LedTable, ports: Ports, k: nat): bv8
    requires k < 8
  {
    if LedOn(m, ports, k) then 1 else 0
  }

  /** The read-back loop written out LED by LED, most significant first. */
  function ReadUnrolled(m: LedTable, ports: Ports): bv8
  {
    var r6 := (LedValue(m, ports, 7) << 1) | LedValue(m, ports, 6);
    var r4 := (((r6 << 1) | LedValue(m, ports, 5)) << 1) | LedValue(m, ports, 4);
    var r2 := (((r4 << 1) | LedValue(m, ports, 3)) << 1) | LedValue(m, ports, 2);
    (((r2 << 1) | LedValue(m, ports, 1)) << 1) | LedValue(m, ports, 0)
  }

  lemma ReadBackUnrolled(m: LedTable, ports: Ports)
    ensures ReadBack(m, ports) == ReadUnrolled(m, ports)
  {
    assert ReadFrom(m, ports, 6) == (LedValue(m, ports, 7) << 1) | LedValue(m, ports, 6) by {
      ReadFromTwoSteps(m, ports, 6);
      assert ReadFrom(m, ports, 8) == 0;
    }
    ReadFromTwoSteps(m, ports, 4);
    ReadFromTwoSteps(m, ports, 2);
    ReadFromTwoSteps(m, ports, 0);
  }

  /** Two iterations of the read-back recursion. */
  lemma ReadFromTwoSteps(m: LedTable, ports: Ports, i: nat)
    requires i + 2 <= 8
    ensures ReadFrom(m, ports, i) ==
      (((ReadFrom(m, ports, i + 2) << 1) | LedValue(m, ports, i + 1)) << 1) | LedValue(m, ports, i)
  {
  }
}
