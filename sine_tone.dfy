/**
 * The sine-tone app: a 500-entry wavetable built once, then resampled by a
 * phase accumulator into a 16000-entry buffer of PWM duty values per note.
 *
 * The source keeps the accumulator in a float. For frequencies up to 16000
 * every value it takes is a multiple of 1/32 below 500, well inside the float
 * significand, so the model counts the phase exactly in 32nds of a table
 * entry (above 16000 the source reads past the table anyway): one step of
 * frequency f adds f 32nds, and a whole table is PhaseSpan = 500 * 32 = 16000.
 * CumulativeStep is the real-valued accumulator, and PhaseIn32nds proves the
 * two agree.
 */
module SineTone {
  import opened Pwm

  const SineBufferSize := 500
  const SamplingFrequency := 16000
  const BufferSize := 16000
  const PwmClockHz := 16000000

  /** pwm_init's COUNTERTOP: two PWM periods per sample at 16 MHz. */
  const Countertop := PwmClockHz / (SamplingFrequency * 2)

  /** The peak value main hands to compute_sine_wave: COUNTERTOP - 1. */
  const MaxSampleValue := PwmClockHz / (SamplingFrequency * 2) - 1

  /** The phase is counted in 32nds of a table entry. */
  const PhaseScale := 32
  const PhaseSpan := SineBufferSize * PhaseScale

  lemma CountertopValues()
    ensures Countertop == 500 && MaxSampleValue == 499
    ensures MaxSampleValue == Countertop - 1
    ensures PhaseSpan == SamplingFrequency
  {
  }

  // ---------------------------------------------------------------------
  // compute_sine_wave
  // ---------------------------------------------------------------------

  /**
   * One table entry: the sine value moved from [-1, 1] into [0, 1], scaled by
   * maxValue and truncated to an integer, as the cast to uint16_t does.
   */
  function TableEntry(maxValue: Uint16, sineValue: real): (v: Uint16)
    requires -1.0 <= sineValue <= 1.0
    ensures 0 <= v <= maxValue
  {
    var magnitude := (sineValue + 1.0) / 2.0;
    var scaled := maxValue as real * magnitude;
    assert 0.0 <= magnitude <= 1.0;
    MulAtMostOne(maxValue as real, magnitude);
    assert 0.0 <= scaled <= maxValue as real;
    assert scaled.Floor as real <= scaled;
    scaled.Floor
  }

  lemma MulAtMostOne(m: real, t: real)
    requires 0.0 <= m && 0.0 <= t <= 1.0
    ensures 0.0 <= m * t <= m
  {
  }

  /** A zero sine value lands on half the peak, a crest on the peak, a trough on 0. */
  lemma TableEntryLandmarks(maxValue: Uint16)
    ensures TableEntry(maxValue, 0.0) == maxValue / 2
    ensures TableEntry(maxValue, 1.0) == maxValue
    ensures TableEntry(maxValue, -1.0) == 0
  {
  }

  ghost predicate IsSineSamples(sineValues: seq<real>)
  {
    |sineValues| == SineBufferSize &&
    forall i :: 0 <= i < |sineValues| ==> -1.0 <= sineValues[i] <= 1.0
  }

  /** The table compute_sine_wave builds from the sine of each table index's angle. */
  function SineTable(maxValue: Uint16, sineValues: seq<real>): seq<Uint16>
    requires IsSineSamples(sineValues)
  {
    seq(SineBufferSize, i requires 0 <= i < SineBufferSize => TableEntry(maxValue, sineValues[i]))
  }

  /** Every one of the SineBufferSize entries lies in [0, maxValue]. */
  lemma SineTableBounded(maxValue: Uint16, sineValues: seq<real>)
    requires IsSineSamples(sineValues)
    ensures |SineTable(maxValue, sineValues)| == SineBufferSize
    ensures forall i :: 0 <= i < SineBufferSize ==> 0 <= SineTable(maxValue, sineValues)[i] <= maxValue
  {
  }

  /**
   * compute_sine_wave: fills the global sine_buffer entry by entry.
   * sineValues[i] stands for sin(2 * pi * i / SineBufferSize).
   */
  method ComputeSineWave(sineBuffer: array<Uint16>, maxValue: Uint16, sineValues: seq<real>)
    requires sineBuffer.Length == SineBufferSize
    requires IsSineSamples(sineValues)
    modifies sineBuffer
    ensures sineBuffer[..] == SineTable(maxValue, sineValues)
  {
    for i := 0 to SineBufferSize
      invariant forall k :: 0 <= k < i ==> sineBuffer[k] == TableEntry(maxValue, sineValues[k])
    {
      sineBuffer[i] := TableEntry(maxValue, sineValues[i]);
    }
  }

  // ---------------------------------------------------------------------
  // play_note: the step and the phase accumulator
  // ---------------------------------------------------------------------

  /** step_size = SINE_BUFFER_SIZE * frequency / SAMPLING_FREQUENCY table entries per sample. */
  function StepSize(frequency: Uint16): (s: real)
    ensures 0.0 <= s && s * PhaseScale as real == frequency as real
  {
    SineBufferSize as real * frequency as real / SamplingFrequency as real
  }

  /** The step is exactly frequency / 32 table entries, i.e. frequency 32nds. */
  lemma StepSizeIn32nds(frequency: Uint16)
    ensures StepSize(frequency) == frequency as real / PhaseScale as real
  {
  }

  /** The source's accumulator over the reals: add the step, subtract one table length once. */
  function CumulativeStep(step: real, i: nat): (c: real)
    ensures 0.0 <= step <= SineBufferSize as real ==> 0.0 <= c < SineBufferSize as real
  {
    if i == 0 then 0.0
    else
      var p := CumulativeStep(step, i - 1) + step;
      if p >= SineBufferSize as real then p - SineBufferSize as real else p
  }

  /** One iteration of the source's update in 32nds, with its single subtraction. */
  function WrapOnce(q: nat, frequency: nat): (r: nat)
    ensures r == q + frequency || r == q + frequency - PhaseSpan
    ensures r == q + frequency <==> q + frequency < PhaseSpan
    ensures q + frequency < 2 * PhaseSpan ==> r < PhaseSpan
  {
    if q + frequency >= PhaseSpan then q + frequency - PhaseSpan else q + frequency
  }

  /** The phase, in 32nds, that the source's loop reads at sample i. */
  function PhaseAfter(frequency: nat, i: nat): (q: nat)
    ensures frequency <= PhaseSpan ==> q < PhaseSpan
  {
    if i == 0 then 0 else WrapOnce(PhaseAfter(frequency, i - 1), frequency)
  }

  /** The integer phase in 32nds is the real accumulator, exactly. */
  lemma {:induction false} PhaseIn32nds(frequency: Uint16, i: nat)
    ensures CumulativeStep(StepSize(frequency), i) == PhaseAfter(frequency, i) as real / PhaseScale as real
  {
    if i > 0 {
      PhaseIn32nds(frequency, i - 1);
      StepSizeIn32nds(frequency);
    }
  }

  /** The intended phase at sample i: i steps around a circle of PhaseSpan 32nds. */
  function Phase(frequency: nat, i: nat): nat
  {
    (i * frequency) % PhaseSpan
  }

  /** The table index sample i reads: the phase truncated to whole table entries. */
  function TableIndex(frequency: nat, i: nat): (k: nat)
    ensures k < SineBufferSize
  {
    Phase(frequency, i) / PhaseScale
  }

  lemma AddMod(a: nat, b: nat)
    ensures (a % PhaseSpan + b) % PhaseSpan == (a + b) % PhaseSpan
  {
    var q := a / PhaseSpan;
    assert a == q * PhaseSpan + a % PhaseSpan;
    ModMultiple(a % PhaseSpan + b, q);
  }

  lemma ModMultiple(x: nat, q: nat)
    ensures (x + q * PhaseSpan) % PhaseSpan == x % PhaseSpan
  {
  }

  /** One more sample advances the intended phase by the step, modulo the table. */
  lemma PhaseStep(frequency: nat, i: nat)
    ensures Phase(frequency, i + 1) == (Phase(frequency, i) + frequency) % PhaseSpan
  {
    assert (i + 1) * frequency == i * frequency + frequency;
    AddMod(i * frequency, frequency);
  }

  /**
   * With a step of at most one table length, the single subtraction of the
   * source gives exactly the intended phase (i * step) mod table length.
   */
  lemma {:induction false} AsWrittenPhaseClosedForm(frequency: nat, i: nat)
    requires frequency <= PhaseSpan
    ensures PhaseAfter(frequency, i) == Phase(frequency, i)
  {
    if i > 0 {
      AsWrittenPhaseClosedForm(frequency, i - 1);
      PhaseStep(frequency, i - 1);
      var p := Phase(frequency, i - 1);
      assert PhaseAfter(frequency, i) == WrapOnce(p, frequency);
      WrapOnceIsMod(p, frequency);
    }
  }

  lemma WrapOnceIsMod(q: nat, frequency: nat)
    requires q < PhaseSpan && frequency <= PhaseSpan
    ensures WrapOnce(q, frequency) == (q + frequency) % PhaseSpan
  {
  }

  /**
   * At any frequency, as long as the source's phase has stayed inside the
   * table, it is the intended phase: the corrected wrap reads what the source
   * reads at every sample where the source's read is in bounds.
   */
  lemma {:induction false} AsWrittenMatchesWhileInTable(frequency: nat, i: nat)
    requires forall k :: 0 <= k <= i ==> PhaseAfter(frequency, k) < PhaseSpan
    ensures PhaseAfter(frequency, i) == Phase(frequency, i)
  {
    if i > 0 {
      AsWrittenMatchesWhileInTable(frequency, i - 1);
      PhaseStep(frequency, i - 1);
      var p := Phase(frequency, i - 1);
      assert PhaseAfter(frequency, i) == WrapOnce(p, frequency);
      assert PhaseAfter(frequency, i) < PhaseSpan;
      WrapOnceInTable(p, frequency);
    }
  }

  /** A single subtraction that lands inside the table is reduction modulo the table. */
  lemma WrapOnceInTable(q: nat, frequency: nat)
    requires WrapOnce(q, frequency) < PhaseSpan
    ensures WrapOnce(q, frequency) == (q + frequency) % PhaseSpan
  {
    var r := WrapOnce(q, frequency);
    if r != q + frequency {
      ShiftMod(r);
    }
  }

  /**
   * With a step above one table length the single subtraction is not enough:
   * at 32000 Hz (1000 entries per sample) the second sample reads index 500,
   * one past the end of the table.
   */
  lemma SingleWrapOverrunsTable()
    ensures PhaseAfter(32000, 1) / PhaseScale == SineBufferSize
  {
  }

  /** (int)cumulative_step, the truncation of the real accumulator, is the intended table index. */
  lemma SourceIndexIsTableIndex(frequency: Uint16, i: nat)
    requires frequency <= PhaseSpan
    ensures CumulativeStep(StepSize(frequency), i).Floor == TableIndex(frequency, i)
  {
    PhaseIn32nds(frequency, i);
    AsWrittenPhaseClosedForm(frequency, i);
    FloorOf32nds(Phase(frequency, i));
  }

  lemma FloorOf32nds(q: nat)
    ensures (q as real / PhaseScale as real).Floor == q / PhaseScale
  {
    var k := q / PhaseScale;
    assert k * PhaseScale <= q < (k + 1) * PhaseScale;
    assert k as real <= q as real / PhaseScale as real < (k + 1) as real;
  }

  /**
   * Subtracting rather than resetting keeps the phase continuous: modulo the
   * table, consecutive phases always differ by exactly one step.
   */
  lemma PhaseContinuity(frequency: nat, i: nat)
    ensures (Phase(frequency, i + 1) - Phase(frequency, i)) % PhaseSpan == frequency % PhaseSpan
  {
    PhaseStep(frequency, i);
    var p := Phase(frequency, i);
    ContinuityArith(p, frequency, Phase(frequency, i + 1) - p);
  }

  /**
   * The same continuity for the source's own accumulator, at every frequency:
   * the single subtraction moves the phase by exactly one step modulo the table.
   */
  lemma AsWrittenPhaseContinuity(frequency: nat, i: nat)
    ensures (PhaseAfter(frequency, i + 1) - PhaseAfter(frequency, i)) % PhaseSpan == frequency % PhaseSpan
  {
    var p := PhaseAfter(frequency, i);
    var d := PhaseAfter(frequency, i + 1) - p;
    assert PhaseAfter(frequency, i + 1) == WrapOnce(p, frequency);
    if d != frequency {
      ShiftMod(d);
    }
  }

  lemma ShiftMod(d: int)
    ensures (d + PhaseSpan) % PhaseSpan == d % PhaseSpan
  {
  }

  lemma ContinuityArith(p: nat, f: nat, d: int)
    requires p < PhaseSpan
    requires p + d == (p + f) % PhaseSpan
    ensures d % PhaseSpan == f % PhaseSpan
  {
    var q := (p + f) / PhaseSpan;
    assert p + f == q * PhaseSpan + (p + d);
    assert f == d + q * PhaseSpan;
  }

  // ---------------------------------------------------------------------
  // play_note: the buffer fill
  // ---------------------------------------------------------------------

  /** The samples play_note is meant to produce: sample i is the table entry at the intended phase. */
  function Resampled(table: seq<Uint16>, frequency: Uint16): (samples: seq<Uint16>)
    requires |table| == SineBufferSize
    ensures |samples| == BufferSize
    ensures forall i :: 0 <= i < |samples| ==> samples[i] in table
  {
    seq(BufferSize, i requires 0 <= i < BufferSize => table[TableIndex(frequency, i)])
  }

  /** The phase starts at 0, so the first sample is the first table entry. */
  lemma ResampledStartsAtTableStart(table: seq<Uint16>, frequency: Uint16)
    requires |table| == SineBufferSize
    ensures Resampled(table, frequency)[0] == table[0]
  {
    assert Phase(frequency, 0) == 0;
  }

  /** Samples are copied from the table, so a table bounded by maxValue gives samples bounded by it. */
  lemma ResampledWithinMax(table: seq<Uint16>, frequency: Uint16, maxValue: nat)
    requires |table| == SineBufferSize
    requires forall k :: 0 <= k < |table| ==> table[k] <= maxValue
    ensures forall i :: 0 <= i < BufferSize ==> Resampled(table, frequency)[i] <= maxValue
  {
  }

  /**
   * A frequency of k * SamplingFrequency / SineBufferSize (k * 32 Hz) steps a
   * whole k entries per sample, so the buffer replays the table's own entries
   * with no drift.
   */
  lemma ResampledWholeStep(table: seq<Uint16>, k: nat, i: nat)
    requires |table| == SineBufferSize && k * PhaseScale < 0x1_0000 && i < BufferSize
    ensures Resampled(table, k * PhaseScale)[i] == table[(i * k) % SineBufferSize]
  {
    WholeStepIndex(k, i);
  }

  lemma WholeStepIndex(k: nat, i: nat)
    ensures TableIndex(k * PhaseScale, i) == (i * k) % SineBufferSize
  {
    var m := i * k;
    assert i * (k * PhaseScale) == m * PhaseScale;
    var r := m % SineBufferSize;
    var q := m / SineBufferSize;
    assert m * PhaseScale == q * PhaseSpan + r * PhaseScale;
    ModMultiple(r * PhaseScale, q);
    assert (m * PhaseScale) % PhaseSpan == r * PhaseScale;
  }

  /** The worked example: at 440 Hz (13.75 entries per sample) the second sample reads entry 13. */
  lemma A4SecondSample()
    ensures TableIndex(440, 1) == 13
  {
  }

  /**
   * The wrap of the accumulator: subtract one table length while the phase is
   * at least one table length, which leaves the phase modulo the table.
   */
  method WrapPhase(q: nat) returns (r: nat)
    ensures r < PhaseSpan && r == q % PhaseSpan
  {
    r := q;
    while r >= PhaseSpan
      invariant r % PhaseSpan == q % PhaseSpan
    {
      r := r - PhaseSpan;
    }
  }

  /**
   * play_note: fills the global samples buffer from sine_buffer with a phase
   * accumulator starting at 0, and returns the playback request it then
   * makes: the 16000 samples, each repeated once, played once.
   *
   * The wrap subtracts one table length for as long as the phase is at least
   * one table length. The source subtracts once; for steps of at most one
   * table length (frequency <= 16000) the two coincide, see
   * AsWrittenPhaseClosedForm and SingleWrapOverrunsTable.
   */
  method PlayNote(sineBuffer: array<Uint16>, samples: array<Uint16>, frequency: Uint16)
    returns (request: Op)
    requires sineBuffer.Length == SineBufferSize && samples.Length == BufferSize
    modifies samples
    ensures samples[..] == Resampled(sineBuffer[..], frequency)
    ensures unchanged(sineBuffer)
    ensures request == StartPlayback(Sequence(BufferSize, 1, 0), 1)
  {
    var q: nat := 0;  // cumulative_step, in 32nds of a table entry
    for i := 0 to BufferSize
      invariant q == Phase(frequency, i)
      invariant forall k :: 0 <= k < i ==> samples[k] == sineBuffer[TableIndex(frequency, k)]
    {
      samples[i] := sineBuffer[q / PhaseScale];
      PhaseStep(frequency, i);
      q := q + frequency;
      q := WrapPhase(q);
    }
    request := StartPlayback(Sequence(BufferSize, 1, 0), 1);
  }
}
