# micro:bit v2 PWM and break-beam demos, modelled in Dafny

This project models the deterministic logic of four small micro:bit v2 demo
programs and proves what each of them computes.

- **Sine tone** (`sine_tone.dfy`, module `SineTone`). `compute_sine_wave` fills a 500-entry wavetable `sine_buffer`. `play_note` then walks that table with a phase accumulator and fills the 16000-entry buffer `samples` with PWM duty values. The phase starts at 0. Each sample adds `500 * f / 16000 = f / 32` table entries, and the wrap subtracts one table length rather than resetting to 0.
- **Servo** (`servo.dfy`, module `Servo`). `set_servo` clamps an angle to 180 degrees and maps it to a pulse width of 500 to 2250 microseconds. It turns the pulse width into a duty value for a 10000-tick, 20 ms PWM period and stores that value with bit 15 set in `sequence_data[0]`. `main` sweeps a `uint8_t` angle from 0 to 180 in steps of 45.
- **Square tone** (`square_tone.dfy`, module `SquareTone`). `play_tone` computes `countertop = 500000 / frequency` and clamps it to [3, 0x7FFF]. It writes that value to the COUNTERTOP register and stores `countertop / 4` (a 25% duty) in `sequence_data[0]`.
- **Skeeball break beam** (`skeeball.dfy`, module `Skeeball`). The app reads a baseline from the pin, then polls it. It reports "beam broken" on a 1 to 0 change and "beam restored" on a 0 to 1 change. After each poll, `prev_state` holds the reading just taken.
- **Shared types** (`pwm.dfy`, module `Pwm`). This module has the bounded C integer types (`uint8_t`, `uint16_t`, `uint32_t`) and the conversions the apps use. It also has `Op`, a log of the requests the apps make to the PWM peripheral: stop, COUNTERTOP write, sequence-value write and playback start.

How each part is modelled:

- **Phase accumulator.** The source keeps `cumulative_step` in a `float`. For frequencies up to 16000 the value is always an exact multiple of 1/32 below 500, well inside the float significand. (Above 16000 the source's single subtraction never brings the phase back, so it grows by f - 16000 32nds per sample and can leave the float's exact range; from 16002 Hz up it leaves the table within the 16000 samples, see the Findings table.) So the model counts the phase exactly, as a natural number of 32nds of a table entry:
  - each step adds `f`;
  - one table length is 16000 32nds;
  - the table index is the phase divided by 32.
  
  `SineTone.CumulativeStep` is the accumulator over the reals, and `SineTone.PhaseIn32nds` proves it equals the integer phase divided by 32.
- **Wavetable.** The sine value for each table index is an input in [-1, 1]. `compute_sine_wave` maps it into [0, max_value] and truncates it.
- **Global buffers and state.** The sine app's global arrays are `array` parameters that its methods change in place. The servo and square-tone apps' globals are fields of the classes `ServoApp` and `SquareToneApp`: `sequence_data`, `pwm_sequence`, the COUNTERTOP register and the request log.
- **Break beam.** The polling loop is the method `Poll`, run over a baseline reading and a finite list of later readings. `Transitions` is the specification of the events over a list of readings. `printf` output becomes `Event` values.

## Model

| member | source | states |
|---|---|---|
| `SineTone.CountertopValues` | software/apps/pwm_sine_tone/main.c:151 | The PWM countertop 16000000 / (16000 * 2) is 500; the peak passed to the table builder is countertop - 1 = 499; a whole table is 16000 32nds. |
| `SineTone.TableEntry` | software/apps/pwm_sine_tone/main.c:78-86 | A sine value in [-1, 1], moved to [0, 1], scaled by max_value and truncated, lies in [0, max_value]. |
| `SineTone.TableEntryLandmarks` | software/apps/pwm_sine_tone/main.c:78-86 | A zero sine value gives max_value / 2, a crest (1) gives max_value, a trough (-1) gives 0. |
| `SineTone.SineTableBounded` | software/apps/pwm_sine_tone/main.c:69-89 | The built table has exactly SINE_BUFFER_SIZE entries, each in [0, max_value]. |
| `SineTone.ComputeSineWave` | software/apps/pwm_sine_tone/main.c:68-91 | Fills every entry of sine_buffer, entry i from the sine value of index i. |
| `SineTone.StepSize` | software/apps/pwm_sine_tone/main.c:97 | The step is non-negative and 32 steps make exactly f table entries. |
| `SineTone.StepSizeIn32nds` | software/apps/pwm_sine_tone/main.c:97 | step_size = 500 * f / 16000 is exactly f / 32 table entries. |
| `SineTone.CumulativeStep` | software/apps/pwm_sine_tone/main.c:107-118 | The source's real-valued accumulator (start at 0, add the step, subtract 500 once) stays in [0, 500) whenever the step is in [0, 500]. |
| `SineTone.WrapOnce` | software/apps/pwm_sine_tone/main.c:114-118 | One update of the source's accumulator in 32nds: the result is phase + step when that is below one table, and phase + step minus exactly one table otherwise; so it is below one table when phase + step is below two. |
| `SineTone.PhaseAfter` | software/apps/pwm_sine_tone/main.c:114-118 | The source's accumulator (add the step, subtract 500 once) stays below one table length whenever the step is at most one table length. |
| `SineTone.PhaseIn32nds` | software/apps/pwm_sine_tone/main.c:107-118 | The real-valued accumulator after i samples equals the integer phase in 32nds divided by 32. |
| `SineTone.AsWrittenPhaseClosedForm` | software/apps/pwm_sine_tone/main.c:104-118 | For a step of at most 500 entries, the subtract-once wrap gives exactly (i * step) mod 500 after i samples. |
| `SineTone.WrapOnceIsMod` | software/apps/pwm_sine_tone/main.c:114-118 | One subtraction of a table length is reduction modulo the table when the phase is in range and the step is at most one table. |
| `SineTone.AsWrittenMatchesWhileInTable` | software/apps/pwm_sine_tone/main.c:107-118 | At every frequency, as long as the source's phase has stayed inside the table up to sample i, it equals the intended phase (i * step) mod 500 at sample i. |
| `SineTone.WrapOnceInTable` | software/apps/pwm_sine_tone/main.c:114-118 | A single subtraction whose result lands inside the table is reduction modulo the table. |
| `SineTone.SingleWrapOverrunsTable` | software/apps/pwm_sine_tone/main.c:110-118 | At 32000 Hz the subtract-once wrap makes the second sample read index 500, one past the table. |
| `SineTone.TableIndex` | software/apps/pwm_sine_tone/main.c:110 | The index each sample reads is a valid index into the 500-entry table. |
| `SineTone.SourceIndexIsTableIndex` | software/apps/pwm_sine_tone/main.c:110 | For frequencies up to 16000, `(int)cumulative_step`, the truncated real accumulator, is floor((i * step) mod 500). |
| `SineTone.PhaseContinuity` | software/apps/pwm_sine_tone/main.c:104-105 | The intended phase (i * step) mod 500 advances by exactly one step modulo the table from each sample to the next. |
| `SineTone.AsWrittenPhaseContinuity` | software/apps/pwm_sine_tone/main.c:104-118 | Because the source's wrap subtracts rather than resets, its own accumulator advances by exactly one step modulo the table from each sample to the next, at every frequency. |
| `SineTone.Resampled` | software/apps/pwm_sine_tone/main.c:108-113 | The intended output of the fill loop: exactly BUFFER_SIZE samples, each of them an entry of sine_buffer. |
| `SineTone.ResampledStartsAtTableStart` | software/apps/pwm_sine_tone/main.c:100-101 | The first output sample is sine_buffer[0]. |
| `SineTone.ResampledWithinMax` | software/apps/pwm_sine_tone/main.c:110-112 | Samples are copied from the table, so a table bounded by max_value gives samples bounded by max_value. |
| `SineTone.ResampledWholeStep` | software/apps/pwm_sine_tone/main.c:97-118 | At k * 32 Hz (k whole entries per sample) sample i is table entry (i * k) mod 500, with no drift. |
| `SineTone.A4SecondSample` | software/apps/pwm_sine_tone/main.c:155 | At 440 Hz (13.75 entries per sample) the second sample reads entry 13. |
| `SineTone.WrapPhase` | software/apps/pwm_sine_tone/main.c:115-118 | The corrected wrap (see Findings): subtracting the table length while the phase is at least one table length leaves the phase modulo the table. |
| `SineTone.PlayNote` | software/apps/pwm_sine_tone/main.c:93-130 | Overwrites every one of the 16000 samples, sample i with the table entry at floor((i * f / 32) mod 500); leaves sine_buffer unchanged; returns the playback request: a 16000-value sequence, each value repeated once, played once. |
| `Servo.ClampAngle` | software/apps/pwm_servo/main.c:57-60 | An angle above 180 becomes 180; an angle of at most 180 is unchanged. |
| `Servo.PulseWidth` | software/apps/pwm_servo/main.c:70-72 | duration = 500 + angle * 1750 / 180 lies in [500, 2250]. |
| `Servo.PulseWidthNoOverflow` | software/apps/pwm_servo/main.c:71-72 | angle * slope is at most 315000, so its uint32_t value is exact. |
| `Servo.PulseWidthCalibration` | software/apps/pwm_servo/main.c:62-72 | The map gives 500 us at 0, 1375 us at 90 and 2250 us at 180 degrees, as the calibration comment states. |
| `Servo.PulseWidthMonotonic` | software/apps/pwm_servo/main.c:58-72 | A larger angle never gives a shorter pulse. |
| `Servo.DutyCycle` | software/apps/pwm_servo/main.c:75-78 | duty_cycle = duration * 10000 / 20000 is half the pulse width, lies in [250, 1125] and is below the 10000 countertop. |
| `Servo.DutyCycleNoOverflow` | software/apps/pwm_servo/main.c:78 | duration * 10000 is at most 22,500,000, so its uint32_t value is exact. |
| `Servo.SetBit15` | software/apps/pwm_servo/main.c:84 | x \| (1 << 15) on a 16-bit value: bit 15 is set, the low 15 bits are those of x, and a value with bit 15 already set is unchanged. |
| `Servo.SetBit15IsBitwiseOr` | software/apps/pwm_servo/main.c:84 | The arithmetic form of x \| (1 << 15) agrees with the bit-vector OR for values below 2^15. |
| `Servo.LeftAligned` | software/apps/pwm_servo/main.c:84 | duty_cycle \| (1 << 15) stored in a 16-bit sequence value: the top bit is set and the low 15 bits are those of duty_cycle. |
| `Servo.LeftAlignedBits` | software/apps/pwm_servo/main.c:84 | For a duty value below 2^15 the stored 16-bit word has bit 15 set and the duty value in its low 15 bits. |
| `Servo.ServoWord` | software/apps/pwm_servo/main.c:84 | The word set_servo stores has bit 15 set and low 15 bits equal to duty_cycle. |
| `Servo.ServoApp.constructor` | software/apps/pwm_servo/main.c:18-27 | sequence_data starts as one zero value; pwm_sequence describes one value, no repeats, no end delay. |
| `Servo.ServoApp.SetServo` | software/apps/pwm_servo/main.c:56-89 | Stores the left-aligned duty word in sequence_data[0], leaves pwm_sequence untouched, and starts playback of it once. |
| `Servo.ServoApp.Sweep` | software/apps/pwm_servo/main.c:104-107 | The uint8_t sweep visits 0, 45, 90, 135, 180 and exits at 225 without wrapping; it drives the servo at each angle in turn. |
| `SquareTone.RawCountertop` | software/apps/pwm_square_tone/main.c:60 | countertop = 500000 / frequency is the integer quotient; frequency must be non-zero. |
| `SquareTone.Countertop` | software/apps/pwm_square_tone/main.c:58-64 | After the two clamps the countertop lies in [3, 0x7FFF] and equals the quotient when that is already in range. |
| `SquareTone.LowerClampNeverFires` | software/apps/pwm_square_tone/main.c:53-62 | For every uint16_t frequency the quotient is at least 7, so the lower clamp never fires. |
| `SquareTone.UpperClampFiresIff` | software/apps/pwm_square_tone/main.c:60-64 | The upper clamp fires exactly when frequency is at most 15. |
| `SquareTone.CountertopCases` | software/apps/pwm_square_tone/main.c:60-64 | From 16 Hz up the countertop is 500000 / frequency; below that it is 0x7FFF. |
| `SquareTone.Duty` | software/apps/pwm_square_tone/main.c:67-69 | sequence_data[0] = countertop / 4 is a quarter of the countertop, below it, at most 8191, with bit 15 clear. |
| `SquareTone.SquareToneApp.constructor` | software/apps/pwm_square_tone/main.c:18-48 | COUNTERTOP starts at 1000; sequence_data starts as one zero value; pwm_sequence describes one value, no repeats, no end delay. |
| `SquareTone.SquareToneApp.PlayTone` | software/apps/pwm_square_tone/main.c:53-76 | Stops, writes the clamped countertop to COUNTERTOP, stores a quarter of that same value in sequence_data[0], then starts playback, in that order. |
| `Skeeball.Detect` | software/apps/skeeball/main.c:26-32 | "Broken" exactly on current 0 after previous 1; "restored" exactly on current 1 after previous 0; nothing otherwise, in particular when the reading is unchanged. |
| `Skeeball.Transitions` | software/apps/skeeball/main.c:21-35 | The events a run of readings reports: none for fewer than two readings, and at most one per adjacent pair. |
| `Skeeball.Poll` | software/apps/skeeball/main.c:19-36 | The baseline read reports nothing; the loop reports the transitions of the readings in order; prev_state ends as the last reading. |
| `Skeeball.EventCountIsChanges` | software/apps/skeeball/main.c:21-35 | On readings of 0 and 1, the number of events equals the number of adjacent unequal pairs. |
| `Skeeball.LastEventMatchesLastReading` | software/apps/skeeball/main.c:26-35 | On readings of 0 and 1, the last event is "broken" if the last reading is 0 and "restored" if it is 1. |
| `Skeeball.EventsAlternate` | software/apps/skeeball/main.c:21-35 | On readings of 0 and 1, "broken" and "restored" events alternate. |
| `Skeeball.FirstEventLeavesBaseline` | software/apps/skeeball/main.c:19-31 | On readings of 0 and 1, the first event is "broken" from a baseline of 1 and "restored" from a baseline of 0. |
| `Skeeball.FirstChangeKeepsBaseline` | software/apps/skeeball/main.c:19-35 | On readings of 0 and 1 with no event, every reading equals the baseline. |
| `Pwm.ToUint16` | software/apps/pwm_square_tone/main.c:69 | The cast to a 16-bit sequence value keeps the low 16 bits, and keeps values that already fit. |
| `Pwm.WrapUint32` | software/apps/pwm_servo/main.c:71-78 | uint32_t arithmetic reduces modulo 2^32 and keeps values that fit. |

## Findings

| source | as written | input that shows it | evidently intended | confidence | as-written member | corrected member |
|---|---|---|---|---|---|---|
| software/apps/pwm_sine_tone/main.c:114-118 | The wrap subtracts SINE_BUFFER_SIZE only once. When the step is above 500 entries (frequency above 16000), `cumulative_step` can still be 500 or more after the wrap. From 16002 Hz up this happens within the 16000 samples, and the next read goes past the end of `sine_buffer`. | `play_note(32000)`: the step is 1000 entries, `cumulative_step` goes 0, then 1000, then 500 after the wrap, and `samples[1]` reads `sine_buffer[500]`. | The phase is reduced modulo the table length for every `uint16_t` frequency. | medium; not executed | `SineTone.SingleWrapOverrunsTable` | `SineTone.PlayNote` |

`SineTone.PlayNote` subtracts the table length for as long as the phase is at least one table length (`SineTone.WrapPhase`). For frequencies up to 16000 this does exactly what the source does, because `SineTone.AsWrittenPhaseClosedForm` proves the source's single subtraction already gives the intended phase there. At any frequency, `SineTone.AsWrittenMatchesWhileInTable` proves the two agree at every sample up to which the source's reads have stayed inside the table. The notes `main` plays (440, 554, 659 and 880 Hz) are all in that range.

## Left out

- `SineTone.WrapPhase`: it is the corrected wrap, a loop that subtracts the table length until the phase is below it, where the source subtracts once. The two agree up to 16000 Hz (`SineTone.AsWrittenPhaseClosedForm`).
- `SineTone.PlayNote`: above 16000 Hz it uses the corrected wrap from the Findings table, not the source's single subtraction. It gives the source's samples for as long as the source's reads stay inside the table (`SineTone.AsWrittenMatchesWhileInTable`). From the first sample at which the source reads past `sine_buffer` (possible from 16002 Hz up, shown at 32000 Hz by `SineTone.SingleWrapOverrunsTable`), it does not model what the source reads.
- Peripheral bring-up and the vendor driver are not modelled, because their behaviour is not visible in the source. This covers `gpio_init`, `pwm_init`, the `nrfx_pwm_*` calls and `nrf_gpio_*`. The servo and square-tone apps' PWM requests are logged as `Pwm.Op` values in their classes. `SineTone.PlayNote` returns its one playback request as a `Pwm.Op`. The constructors only set the state that `pwm_init` and the global initialisers leave.
- The flags argument of `nrfx_pwm_simple_playback` (looping, or the `NRF_PWM_MODE_UP` the servo app passes) is not modelled. `StartPlayback` records only the sequence and the playback count.
- The sine itself is an input: `sin`, the 3.14159 constant and the angle computation in `compute_sine_wave` are floating-point transcendental numerics. `ComputeSineWave` takes the sine value of each index, which must lie in [-1, 1].
- IEEE float rounding is not modelled. In `play_note` the arithmetic is exact for these constants, and the model counts the phase in 32nds. In `compute_sine_wave` the scaling is modelled over the reals, with truncation toward zero.
- Timing is not modelled: `nrf_delay_ms`, the sample rates on hardware, and the meaning of `BUFFER_SIZE` as one second of audio.
- `printf` text becomes `Skeeball.Event` values. The start-up messages are not modelled.
- The infinite loops of each `main` are not modelled as such. The servo sweep is modelled as one pass (`ServoApp.Sweep`). The break-beam loop runs over a finite list of readings (`Skeeball.Poll`). The fixed note and tone sequences in the two tone apps' `main` are calls of `PlayNote` and `PlayTone` and are not separate members.
- The hardware meaning of bit 15 (left alignment / polarity) is not modelled; only the bit arithmetic is.
