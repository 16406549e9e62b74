/**
 * The binary counter's main loop: show the byte counter on the LEDs, wait
 * 50 milliseconds, step the counter. The counter is an `unsigned char`
 * and the millisecond clock an `unsigned long` bumped by the timer
 * interrupt, both wrapping.
 */
module Counter {
  import opened Leds
  import CounterLeds

  /** `i++` on an `unsigned char`. */
  function Next(i: bv8): (j: bv8)
    ensures i < 255 ==> j as int == i as int + 1
    ensures i == 255 ==> j == 0
  {
    i + 1
  }

  /**
   * The inner loop's test `i < 256`: the byte is promoted to `int`, so the
   * test never fails and the loop never hands back to the outer one.
   */
  function InnerLoopContinues(i: bv8): (r: bool)
    ensures r
  {
    (i as int) < 256
  }

  /** The value shown on the n-th pass of the loop, counting from 0. */
  function Shown(n: nat): bv8
    decreases n
  {
    if n == 0 then 0 else Next(Shown(n - 1))
  }

  /** The n-th value shown is n modulo 256. */
  lemma {:induction false} ShownIsModulo(n: nat)
    ensures Shown(n) as int == n % 256
    decreases n
  {
    if n > 0 {
      ShownIsModulo(n - 1);
      NextModulo(Shown(n - 1), n - 1);
    }
  }

  /** A byte holding k mod 256, stepped, holds k + 1 mod 256. */
  lemma NextModulo(i: bv8, k: nat)
    requires i as int == k % 256
    ensures Next(i) as int == (k + 1) % 256
  {
    ModSucc(k, i as int);
  }

  lemma ModSucc(k: nat, r: int)
    requires r == k % 256
    ensures r < 255 ==> (k + 1) % 256 == r + 1
    ensures r == 255 ==> (k + 1) % 256 == 0
  {
    var q := k / 256;
    assert k == 256 * q + r;
    if r < 255 {
      assert k + 1 == 256 * q + (r + 1);
    } else {
      assert k + 1 == 256 * (q + 1);
    }
  }

  /**
   * The first n passes of the display loop, delays left out: the values
   * shown, and the ports after the last of them.
   */
  method Display(ports: Ports, n: nat) returns (shown: seq<bv8>, out: Ports)
    ensures |shown| == n
    ensures forall k :: 0 <= k < n ==> shown[k] == Shown(k)
    ensures forall k :: 0 <= k < n ==> shown[k] as int == k % 256
    ensures n > 0 ==> ReadBack(CounterLeds.Map, out) as int == (n - 1) % 256
    ensures n == 0 ==> out == ports
    ensures Kept(ports, out)
  {
    var i: bv8 := 0;
    shown, out := [], ports;
    var k := 0;
    while k < n
      invariant k <= n && |shown| == k
      invariant i == Shown(k)
      invariant forall j :: 0 <= j < k ==> shown[j] == Shown(j)
      invariant k > 0 ==> Displayed(ports, out, Shown(k - 1))
      invariant k == 0 ==> out == ports
    {
      ShowDisplayed(ports, out, i);
      out := CounterLeds.Show(out, i);
      ShownAppend(shown);
      shown := shown + [i];
      i := Next(i);
      k := k + 1;
    }
    forall j | 0 <= j < n
      ensures shown[j] as int == j % 256
    {
      ShownIsModulo(j);
    }
    if n > 0 {
      ShownIsModulo(n - 1);
    }
    assert Kept(ports, out);
  }

  /** The pins no LED uses (P1.6, P1.7, P2.2..P2.7) are as they were in `before`. */
  predicate Kept(before: Ports, after: Ports)
  {
    && after.p1 & !CounterLeds.P1Leds == before.p1 & !CounterLeds.P1Leds
    && after.p2 & !CounterLeds.P2Leds == before.p2 & !CounterLeds.P2Leds
  }

  /** A log of the first k values, extended by the next one. */
  lemma ShownAppend(shown: seq<bv8>)
    requires forall j :: 0 <= j < |shown| ==> shown[j] == Shown(j)
    ensures forall j :: 0 <= j <= |shown| ==> (shown + [Shown(|shown|)])[j] == Shown(j)
  {
  }

  /** The LEDs read back `x` and the other pins are as in `before`. */
  predicate Displayed(before: Ports, after: Ports, x: bv8)
  {
    ReadBack(CounterLeds.Map, after) == x && Kept(before, after)
  }

  /** `showByte(x)` displays x and never writes the pins no LED uses. */
  lemma ShowDisplayed(before: Ports, ports: Ports, x: bv8)
    requires ports == before || Kept(before, ports)
    ensures Displayed(before, CounterLeds.Show(ports, x), x)
  {
    CounterLeds.ShowReadBack(ports, x);
  }

  /** 2^32: `unsigned long` arithmetic is modulo this. */
  const Modulus32: nat := 0x1_0000_0000

  type U32 = x: nat | x < Modulus32

  /** The milliseconds delay of one display step. */
  const DelayMs: nat := 50

  /** `millis++` in the timer interrupt, once per millisecond. */
  function Tick(millis: U32): (m: U32)
    ensures millis + 1 < Modulus32 ==> m == millis + 1
    ensures millis + 1 == Modulus32 ==> m == 0
  {
    (millis + 1) % Modulus32
  }

  /** The clock k ticks after `start`. */
  function After(start: U32, k: nat): (m: U32)
    ensures m == (start + k) % Modulus32
    decreases k
  {
    if k == 0 then start else Tick(After(start, k - 1))
  }

  /** `endMillis = startMillis + 50`, wrapping. */
  function EndMillis(start: U32): U32
  {
    (start + DelayMs) % Modulus32
  }

  /** The delay loop keeps spinning while `millis < endMillis`. */
  predicate Waiting(millis: U32, end: U32)
  {
    millis < end
  }

  /**
   * The delay loop as written: it spins while the clock is below the
   * precomputed end time. It waits the full 50 ticks unless the end time
   * wrapped past 2^32, in which case it does not wait at all.
   */
  method WaitAsWritten(start: U32) returns (ticks: nat)
    ensures start + DelayMs < Modulus32 ==> ticks == DelayMs
    ensures start + DelayMs >= Modulus32 ==> ticks == 0
    ensures !Waiting(After(start, ticks), EndMillis(start))
    ensures forall k :: 0 <= k < ticks ==> Waiting(After(start, k), EndMillis(start))
  {
    var end := EndMillis(start);
    var millis := start;
    ticks := 0;
    while Waiting(millis, end)
      invariant millis == After(start, ticks)
      invariant ticks == 0 || (start + DelayMs < Modulus32 && millis == start + ticks <= end)
      invariant forall k :: 0 <= k < ticks ==> Waiting(After(start, k), end)
      decreases end as int - millis as int
    {
      millis := Tick(millis);
      ticks := ticks + 1;
    }
  }

  /**
   * A delay that starts within the last 50 milliseconds before the clock
   * wraps ends at once.
   */
  lemma WrapCutsDelay(start: U32)
    requires start + DelayMs >= Modulus32
    ensures !Waiting(start, EndMillis(start))
  {
  }

  /** Milliseconds since `start`, in wrapping unsigned arithmetic. */
  function Elapsed(millis: U32, start: U32): U32
  {
    (millis - start) % Modulus32
  }

  /** k ticks after `start` the elapsed count is k, wrap or no wrap. */
  lemma ElapsedAfter(start: U32, k: nat)
    requires k < Modulus32
    ensures Elapsed(After(start, k), start) == k
  {
    if start + k < Modulus32 {
      assert After(start, k) == start + k;
    } else {
      assert After(start, k) == start + k - Modulus32;
      assert After(start, k) - start == k - Modulus32;
    }
  }

  /**
   * The delay written with the elapsed count: it waits exactly 50 ticks
   * from every start value.
   */
  method WaitCorrected(start: U32) returns (ticks: nat)
    ensures ticks == DelayMs
    ensures Elapsed(After(start, ticks), start) >= DelayMs
    ensures forall k :: 0 <= k < ticks ==> Elapsed(After(start, k), start) < DelayMs
  {
    var millis := start;
    ticks := 0;
    while Elapsed(millis, start) < DelayMs
      invariant ticks <= DelayMs && millis == After(start, ticks)
      invariant Elapsed(millis, start) == ticks
      invariant forall k :: 0 <= k < ticks ==> Elapsed(After(start, k), start) < DelayMs
      decreases DelayMs - ticks
    {
      ElapsedAfter(start, ticks + 1);
      millis := Tick(millis);
      ticks := ticks + 1;
    }
  }
}
