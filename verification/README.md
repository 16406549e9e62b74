# IR receiver and binary counter firmware, modelled in Dafny

This project models two small MSP430 programs.

- **IR_Receiver** decodes one byte per infrared frame. A frame is an arming edge, a start burst, eight data bits sent least significant bit first, and a stop burst. The decoder runs in the port-1 edge interrupt (`Port_1`). It measures the timer count TA0R at each rising edge and classifies it against fixed tick thresholds. Every failure goes through `reset()`, and so does a timer timeout (`Timer_A`). Each completed byte is shown on eight LEDs and counted in `validBytes`. The main loop runs a self-test: when the accumulator holds 255, it shows `255 - (unsigned char)validBytes`, which is the number of missed frames in a 0..254 batch. It then clears the counter and resets the decoder.
- **Binary_Output** shows a wrapping `unsigned char` counter on eight LEDs, waiting 50 ms of a `millis` clock between values.

Both programs share one `showByte` display loop, driven by a different pin table in each.

The model is functional. The decoder state is an immutable record: `rxData`, `bitCounter`, edge polarity, the timer-interrupt enable, the two output ports and `validBytes`. Each interrupt handler, and one pass of the main loop, is a pure step on that record, selected by an event: `Edge(pulseTime)`, `Timeout` or `Poll`. A run is a left fold of steps over a sequence of events.

The modules follow the program structure:

- `Leds`: the generic display loop over a pin table, and its read-back.
- `ReceiverLeds` and `CounterLeds`: the two pin tables, with closed forms and round trips.
- `Pulses`: the thresholds and the classification of a measured time.
- `BitSeq`: LSB-first bit sequences.
- `Decoder`: the state machine, its invariant and the LSB-first assembly.
- `Frames`: nominal frames, round trips and the self-test report.
- `Counter`: Binary_Output's counter and delay.

Modelling choices:

- One timer tick is 0.5 µs. `pulseTime` is a natural number no larger than TMAX = 30000, because the timer counts up to TA0CCR0.
- `validBytes` is the 16-bit `int` of the MSP430 compiler, modelled as `bv16` with wrap-around. The self-test only reads its low byte.
- The oscilloscope monitor is P1OUT bit 6, toggled by XOR exactly where the handler toggles it. That includes the data edge that then aborts.
- The pin macros are used as written: the detector is on BIT7 and the monitor on BIT6. The header comments name other pins.
- The header gives a zero as a 312 µs burst and a one as a 624 µs burst. The handler measures from one rising edge to the next, which is the 312 µs pause plus the burst. A zero therefore measures 624 µs (1248 ticks) and a one 936 µs (1872 ticks). The model follows the code, and `Pulses.NominalTimings` and `Frames.BitTime` use the measured values.
- The threshold comments (`min "0" pulse`, `max "0" pulse - should be ~ 620 uSec` at IR_Receiver/main.c:34-35) suggest a closed band for a zero. The code never checks its upper end: only a pulse shorter than T0min aborts. A pulse in the gap between T0max and T1min, or at T1max and above, is taken as a zero, and T0max is never consulted. The model follows the code.
- The hardware raises the timeout only while the decoder has its timer interrupt on. The model allows `Timeout` in any state: in an idle state it changes nothing.

## Model

| member | source | states |
|---|---|---|
| Leds.ShowByteUnrolled | IR_Receiver/main.c:178-200 | the display loop drives LED i from bit i of the byte, LED 0 first, through the pin table entry i on P1OUT or P2OUT |
| ReceiverLeds.Show | IR_Receiver/main.c:178-200 | P1OUT bits 4,5 become x bits 0,1; P2OUT bits 0..5 become x bits 2..7; every other bit of both ports, including the monitor pin BIT6 and the detector pin BIT7, keeps its value |
| ReceiverLeds.Port1Pins | IR_Receiver/main.c:45 | the loop's P1OUT writes are LED 0 on BIT4 and LED 1 on BIT5, set or cleared from bits 0 and 1 |
| ReceiverLeds.Port2Pins | IR_Receiver/main.c:45 | the loop's P2OUT writes are LEDs 2..7 on BIT0..BIT5, set or cleared from bits 2..7 |
| ReceiverLeds.ShowReadBack | IR_Receiver/main.c:178-200 | reading the receiver's LEDs back LSB first after showing x gives x |
| ReceiverLeds.ShowIdempotent | IR_Receiver/main.c:178-200 | showing the same byte twice leaves the ports as showing it once |
| CounterLeds.Show | Binary_Output/main.c:44-66 | P1OUT bits 0..5 become x bits 0..5; P2OUT bits 0,1 become x bits 6,7; P1OUT bits 6,7 and P2OUT bits 2..7 keep their values |
| CounterLeds.Port1Pins | Binary_Output/main.c:13 | the loop's P1OUT writes are LEDs 0..5 on BIT0..BIT5 |
| CounterLeds.Port2Pins | Binary_Output/main.c:13 | the loop's P2OUT writes are LEDs 6,7 on BIT0,BIT1 |
| CounterLeds.ShowReadBack | Binary_Output/main.c:44-66 | reading the counter's LEDs back LSB first after showing x gives x |
| CounterLeds.ShowIdempotent | Binary_Output/main.c:44-66 | showing the same byte twice leaves the ports as showing it once |
| Pulses.StartSymbol | IR_Receiver/main.c:101-111 | a start pulse is accepted iff 600 <= t <= 2200, both bounds inclusive, and rejected otherwise |
| Pulses.DataSymbol | IR_Receiver/main.c:112-125 | a data pulse is a one iff 1700 < t < 2200, aborts iff t < 800, and is a zero iff 800 <= t <= 1700 or t >= 2200 |
| Pulses.NominalTimings | IR_Receiver/main.c:9-15 | the nominal 936 µs start burst is a valid start; 624 µs and 936 µs rising-to-rising intervals are a zero and a one |
| Decoder.Init | IR_Receiver/main.c:156-176 | after initialisation the monitor and LED pins are low, as `initIO` clears them; the decoder is idle with validBytes 0, from the zero initialisers of rxData, bitCounter and validBytes (lines 47-50), the falling-edge polarity `initIO` selects, and CCIE off because `initTimer` never sets it; the state satisfies the invariant |
| Decoder.Reset | IR_Receiver/main.c:141-146 | reset leaves rxData 0, bitCounter 0, falling-edge polarity and the timer interrupt off; ports and validBytes are unchanged; resetting an idle state changes nothing |
| Decoder.Arm | IR_Receiver/main.c:85-92 | the arming edge counts one edge, selects rising edges and enables the timer interrupt; of the ports only the monitor pin P1.6 may change |
| Decoder.StartBit | IR_Receiver/main.c:101-111 | the start edge advances the count iff the start pulse is valid, and resets otherwise; of the ports only the monitor pin P1.6 may change |
| Decoder.ShiftIn | IR_Receiver/main.c:113-117 | shifting a bit in halves the accumulator and adds 128 for a one |
| Decoder.DataBit | IR_Receiver/main.c:112-125 | a data edge advances the count iff the pulse is not too short; then the accumulator is shifted with the bit entering at bit 7; a too-short pulse resets; of the ports only the monitor pin P1.6 may change |
| Decoder.Complete | IR_Receiver/main.c:96-100 | the stop edge shows rxData on the LEDs, the ports becoming exactly `showByte(rxData)` of the previous ports (read-back equals rxData), adds one to validBytes and resets |
| Decoder.OnEdge | IR_Receiver/main.c:80-131 | every edge either advances bitCounter by exactly one or leaves the decoder idle; the arming edge sets rising polarity and the timer interrupt; the edge at count 10 shows rxData and resets whatever the pulse time; validBytes changes only then, by one |
| Decoder.EdgePorts | IR_Receiver/main.c:85-126 | the stop edge sets the ports to `showByte(rxData)`; every other edge leaves P2OUT and every P1OUT bit but the monitor pin P1.6 as they were, so the LEDs keep the last byte between frames |
| Decoder.SelfTest | IR_Receiver/main.c:68-74 | when rxData is 255 the ports become exactly `showByte(255 - (unsigned char)validBytes)` of the previous ports, so the LEDs read back 255 minus the low byte of validBytes and every other pin keeps its value; validBytes becomes 0 and the decoder is idle; otherwise nothing changes |
| Decoder.CountOne | IR_Receiver/main.c:98 | counting a byte adds one to the low byte of validBytes when it does not wrap |
| Decoder.TimeoutResets | IR_Receiver/main.c:133-139 | a timeout from any state leaves the decoder idle with ports and validBytes unchanged, and a second timeout changes nothing |
| Decoder.EdgeProgress | IR_Receiver/main.c:85-126 | an edge advances bitCounter by one exactly when the handler restarts the timer: arming, a valid start, a data pulse that is not too short; every other edge leaves the decoder idle |
| Decoder.ShiftInMask | IR_Receiver/main.c:113-117 | shifting in one more bit keeps the bits not yet reached clear |
| Decoder.StepInv | IR_Receiver/main.c:80-146 | every step keeps the invariant: bitCounter in 0..10; polarity and timer interrupt on iff a frame is under way; rxData 0 while bitCounter <= 1; the low 10 - bitCounter bits of rxData clear |
| Decoder.RunInv | IR_Receiver/main.c:80-146 | every sequence of events from a state satisfying the invariant keeps it |
| Decoder.SentinelOnlyWhenFull | IR_Receiver/main.c:69 | in a reachable state rxData can be 255 only when bitCounter is 10 |
| Decoder.PollIdle | IR_Receiver/main.c:68-74 | in every reachable state except a completed frame holding 255, one pass of the main loop changes nothing |
| Decoder.RunAppend | IR_Receiver/main.c:80-139 | running one more event is one more step |
| Decoder.RunConcat | IR_Receiver/main.c:80-139 | running two event sequences one after the other is running their concatenation |
| Decoder.DataStep | IR_Receiver/main.c:112-125 | a valid data edge at counts 2..9 shifts its bit in, toggles the monitor pin and counts the edge |
| Decoder.DataRun | IR_Receiver/main.c:112-125 | after k valid data edges from an accepted start, bitCounter is 2 + k and rxData is 2^(8-k) times the LSB-first value of the bits received |
| Decoder.ByteAssembled | IR_Receiver/main.c:112-125 | after eight valid data edges bitCounter is 10 and rxData is the sum of b_k 2^k, b_0 being the first bit received |
| BitSeq.ByteBitsValue | IR_Receiver/main.c:11 | a byte's bits, sent LSB first, denote the byte |
| Frames.BitTime | IR_Receiver/main.c:13-14 | the nominal zero and one bits are classified as zero and one |
| Frames.ByteTimes | IR_Receiver/main.c:11-14 | a byte's nominal data times are all valid and classify to the byte's bits in order |
| Frames.Started | IR_Receiver/main.c:85-111 | from idle, the arming edge and a nominal start burst reach count 2 with an empty accumulator |
| Frames.BodyDecodes | IR_Receiver/main.c:80-126 | from idle, a nominal frame up to its stop edge leaves exactly its byte in rxData with count 10 |
| Frames.FrameDelivers | IR_Receiver/main.c:80-131 | from idle, a whole nominal frame shows its byte on the LEDs, adds one to validBytes and returns to idle |
| Frames.PolledFrameDelivers | IR_Receiver/main.c:68-74 | for a byte other than 255, the frame with main-loop polls after its eighth data bit and after its stop edge ends in the same state as the frame without polls: idle, LEDs reading back the byte, validBytes one higher |
| Frames.SentinelFrame | IR_Receiver/main.c:68-74 | the 255 frame triggers the self-test at the poll after its last data bit |
| Frames.BatchCounts | IR_Receiver/main.c:98 | each received frame of a batch of ordinary bytes adds exactly one to the low byte of validBytes |
| Frames.BatchReport | IR_Receiver/main.c:68-74 | after a cleared counter, n intact frames and the 255 frame, the LEDs show 255 - n |
| Counter.Next | Binary_Output/main.c:31 | `i++` on an unsigned char adds one below 255 and wraps 255 to 0 |
| Counter.InnerLoopContinues | Binary_Output/main.c:31 | the inner loop's test is true for every value of the byte counter |
| Counter.ShownIsModulo | Binary_Output/main.c:29-33 | the n-th value shown is n mod 256 |
| Counter.Display | Binary_Output/main.c:29-38 | the first n passes show 0, 1, ..., the k-th value being the k-th term of the wrapping `i++` sequence (`Counter.Shown`) and k mod 256, and afterwards the LEDs read back (n - 1) mod 256 while the pins no LED uses (P1OUT bits 6,7, P2OUT bits 2..7) keep their values |
| Counter.Tick | Binary_Output/main.c:94-98 | the millisecond interrupt adds one to the 32-bit clock, wrapping at 2^32 |
| Counter.After | Binary_Output/main.c:94-98 | k ticks after start the clock reads (start + k) mod 2^32 |
| Counter.WaitAsWritten | Binary_Output/main.c:35-37 | the delay loop stops at the first tick where millis >= (start + 50) mod 2^32: after 50 ticks when start + 50 < 2^32, after none otherwise |
| Counter.WrapCutsDelay | Binary_Output/main.c:35-37 | a delay starting within 50 ms of the clock wrapping does not wait at all |
| Counter.ElapsedAfter | Binary_Output/main.c:35-37 | the wrapping difference millis - start counts the ticks since start, wrap or no wrap |
| Counter.WaitCorrected | Binary_Output/main.c:35-37 | a delay on the wrapping difference waits exactly 50 ticks from every start value |

## Left out

- Hardware initialisation is left out: clock calibration, timer configuration, watchdog and pin directions. Of `initIO`, only the output values it sets are modelled, in `Decoder.Init`.
- The real-time behaviour of the timers is left out. `pulseTime` is an input bounded by TMAX, a timeout is an event, and `millis` advances one tick per step.
- Interrupt masking and flag handling (`P1IE`, `P1IFG`) are left out. So is interleaving inside a handler, for example the main-loop poll racing the count-10 edge. Each handler and each main-loop poll is one atomic step.
- The non-atomic read of the 32-bit `millis` on a 16-bit processor is left out, for the same reason.
- Timer restarts (`TACLR`) and the edge-interrupt enable are not state. `Decoder.RestartsTimer` names the edges that restart the timer.
- `bitCounter` is an unbounded natural. Its 16-bit range is never reached, because it stays in 0..10.
- `validBytes` overflow: signed overflow is undefined in C. The model wraps it at 2^16, which leaves the low byte shown by the self-test as on the hardware.
- Decoder.SelfTest: states the display as 255 minus the low byte of validBytes, `(unsigned char)validBytes`, rather than as validBytes modulo 256. The two are the same number, but that step is not proved here.
- Frames.BatchReport: covers batches whose received frames arrive intact and back to back. Frames corrupted part-way, followed by a timeout, are covered only step by step, by `Decoder.DataBit` and `Decoder.TimeoutResets`.
- Counter.Display: leaves out the delay between values, which `Counter.WaitAsWritten` models separately.
- The outer `for(;;)` loop of Binary_Output adds nothing, because the inner loop never exits.

## Findings

| source | as written | input that shows it | evidently intended | confidence | as-written member | corrected member |
|---|---|---|---|---|---|---|
| Binary_Output/main.c:35-37 | the delay's end time is start + 50 in 32-bit unsigned arithmetic, and the loop spins while millis is below it | startMillis = 4294967290: the end time wraps to 44, millis is not below it, and the delay ends at once instead of after 50 ms | wait 50 ms from every start, comparing the wrapping difference millis - startMillis with 50 | not executed | Counter.WaitAsWritten, Counter.WrapCutsDelay | Counter.WaitCorrected, Counter.ElapsedAfter |
