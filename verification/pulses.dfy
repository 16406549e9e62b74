/**
 * Classification of the elapsed timer count read at an edge. Timer A0 runs
 * from SMCLK (16 MHz) divided by 8, so one tick is 0.5 microseconds and
 * every threshold is a microsecond figure times two.
 */
module Pulses {

  /** Minimum "0" pulse (400 us). */
  const T0min: nat := 400 * 2
  /** Maximum "0" pulse (750 us); the receiver never consults it. */
  const T0max: nat := 750 * 2
  /** Minimum "1" pulse (850 us), exclusive. */
  const T1min: nat := 850 * 2
  /** Maximum "1" pulse (1100 us), exclusive. */
  const T1max: nat := 1100 * 2
  /** Minimum start pulse (300 us), inclusive. */
  const Tsmin: nat := 300 * 2
  /** Maximum start pulse (1100 us), inclusive. */
  const Tsmax: nat := 1100 * 2
  /** TA0CCR0: the timer counts 0..TMAX in up mode and then raises its interrupt. */
  const TMAX: nat := 30000

  /** A count read from TA0R: the timer never exceeds TA0CCR0. */
  type Ticks = t: nat | t <= TMAX

  /** Timer ticks per microsecond (2 MHz timer clock). */
  const TicksPerUs: nat := 2

  function UsToTicks(us: nat): nat
  {
    us * TicksPerUs
  }

  datatype Symbol = Start | Zero | One | Invalid

  /**
   * The start-bit test: the pulse is rejected when it is shorter than
   * Tsmin or longer than Tsmax, so both bounds are inclusive.
   */
  function StartSymbol(t: Ticks): (r: Symbol)
    ensures r == Start <==> 600 <= t <= 2200
    ensures r == Invalid <==> !(600 <= t <= 2200)
  {
    if t < Tsmin || t > Tsmax then Invalid else Start
  }

  /**
   * The data-bit test: strictly inside (T1min, T1max) is a one; otherwise
   * below T0min aborts the frame; anything else is a zero, including the
   * gap between T0max and T1min and everything from T1max up.
   */
  function DataSymbol(t: Ticks): (r: Symbol)
    ensures r == One <==> 1700 < t < 2200
    ensures r == Invalid <==> t < 800
    ensures r == Zero <==> (800 <= t <= 1700 || 2200 <= t)
    ensures r != Start
  {
    if T1min < t && t < T1max then One
    else if t < T0min then Invalid
    else Zero
  }

  /**
   * The protocol's nominal timings land in the intended classes: the
   * 936 us start pulse, a zero bit (312 us pause then 312 us pulse,
   * measured rising edge to rising edge) and a one bit (312 us pause then
   * 624 us pulse).
   */
  lemma NominalTimings()
    ensures UsToTicks(936) == 1872 && StartSymbol(1872) == Start
    ensures UsToTicks(312 + 312) == 1248 && DataSymbol(1248) == Zero
    ensures UsToTicks(312 + 624) == 1872 && DataSymbol(1872) == One
  {
  }
}
