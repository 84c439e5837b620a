/**
 * The servo app: an angle in degrees becomes a pulse width in microseconds,
 * then a duty value for a PWM running at 500 kHz with a 10000-tick period
 * (20 ms), stored with bit 15 set in the one-value sequence the PWM plays.
 */
module Servo {
  import opened Pwm

  const MaxAngle := 180
  const MinPulseUs := 500   // 0.500 ms at 0 degrees
  const MaxPulseUs := 2250  // 2.250 ms at 180 degrees
  const Slope := MaxPulseUs - MinPulseUs
  const CountertopTicks := 10000
  const PeriodUs := 20000
  const LeftAlignBit := 0x8000  // 1 << 15

  /** Angles above 180 degrees are limited to 180; the others are kept. */
  function ClampAngle(angle: Uint8): (a: Uint8)
    ensures a <= MaxAngle
    ensures angle <= MaxAngle ==> a == angle
    ensures angle > MaxAngle ==> a == MaxAngle
  {
    if angle > MaxAngle then MaxAngle else angle
  }

  /**
   * The pulse width in microseconds: 500 + angle * slope / 180 with integer
   * division. The source computes it in uint32_t; PulseWidthNoOverflow shows
   * no step wraps, so the exact value is the one computed.
   */
  function PulseWidth(angle: Uint8): (us: Uint32)
    ensures MinPulseUs <= us <= MaxPulseUs
  {
    MinPulseUs + ClampAngle(angle) * Slope / MaxAngle
  }

  /** angle * slope stays far below 2^32, so its uint32_t value is the exact product. */
  lemma PulseWidthNoOverflow(angle: Uint8)
    ensures ClampAngle(angle) * Slope <= 315000
    ensures WrapUint32(ClampAngle(angle) * Slope) == ClampAngle(angle) * Slope
    ensures PulseWidth(angle) == MinPulseUs + WrapUint32(ClampAngle(angle) * Slope) / MaxAngle
  {
  }

  /** The calibration points: 0.500 ms at 0, 1.375 ms at 90 and 2.250 ms at 180 degrees. */
  lemma PulseWidthCalibration()
    ensures PulseWidth(0) == 500 && PulseWidth(90) == 1375 && PulseWidth(180) == 2250
  {
  }

  /** A larger angle never gives a shorter pulse. */
  lemma PulseWidthMonotonic(a: Uint8, b: Uint8)
    requires a <= b
    ensures PulseWidth(a) <= PulseWidth(b)
  {
    var x, y := ClampAngle(a), ClampAngle(b);
    assert x <= y;
    assert x * Slope <= y * Slope;
    assert x * Slope / MaxAngle <= y * Slope / MaxAngle;
  }

  /**
   * duty_cycle = duration * 10000 / 20000: at 500 kHz one tick lasts 2 us, so
   * the duty value is half the pulse width, within [250, 1125] and below the
   * 10000-tick countertop.
   */
  function DutyCycle(angle: Uint8): (d: Uint32)
    ensures d == PulseWidth(angle) / 2
    ensures 250 <= d <= 1125 && d < CountertopTicks
  {
    PulseWidth(angle) * CountertopTicks / PeriodUs
  }

  /** duration * 10000 stays below 2^32, so its uint32_t value is the exact product. */
  lemma DutyCycleNoOverflow(angle: Uint8)
    ensures PulseWidth(angle) * CountertopTicks <= 22500000
    ensures DutyCycle(angle) == WrapUint32(PulseWidth(angle) * CountertopTicks) / PeriodUs
  {
  }

  /**
   * x | (1 << 15) on a 16-bit value: a value whose bit 15 is already set is
   * unchanged, any other gains 2^15. SetBit15IsBitwiseOr ties this to the
   * bit-vector OR.
   */
  function SetBit15(x: Uint16): (r: Uint16)
    ensures (r / LeftAlignBit) % 2 == 1
    ensures r % LeftAlignBit == x % LeftAlignBit
    ensures (x / LeftAlignBit) % 2 == 1 ==> r == x
  {
    if (x / LeftAlignBit) % 2 == 1 then x else x + LeftAlignBit
  }

  lemma SetBit15IsBitwiseOr(b: bv16)
    requires b < 0x8000
    ensures SetBit15(b as int) == (b | 0x8000) as int
  {
    assert b | 0x8000 == b + 0x8000;
    assert (b as int) / LeftAlignBit == 0;
  }

  /**
   * duty_cycle | (1 << 15) stored into a 16-bit sequence value. The OR is
   * taken in 32 bits and the store keeps the low 16 bits; since the mask lies
   * in those 16 bits, that is the OR of the mask with the low 16 bits of duty.
   */
  function LeftAligned(duty: Uint32): (w: Uint16)
    ensures w / LeftAlignBit == 1
    ensures w % LeftAlignBit == duty % LeftAlignBit
  {
    LowBitsOfLowBits(duty);
    SetBit15(ToUint16(duty))
  }

  /** The low 15 bits of the low 16 bits are the low 15 bits. */
  lemma LowBitsOfLowBits(x: nat)
    ensures ToUint16(x) % LeftAlignBit == x % LeftAlignBit
  {
    var q := x / 0x1_0000;
    assert x == q * 0x1_0000 + ToUint16(x);
    assert q * 0x1_0000 == (2 * q) * LeftAlignBit;
  }

  /** For a duty value below 2^15 the stored word has bit 15 set and the duty value in its low 15 bits. */
  lemma LeftAlignedBits(duty: Uint32)
    requires duty < LeftAlignBit
    ensures LeftAligned(duty) / LeftAlignBit == 1
    ensures LeftAligned(duty) % LeftAlignBit == duty
  {
  }

  /** The sequence value set_servo stores for an angle. */
  function ServoWord(angle: Uint8): (w: Uint16)
    ensures w / LeftAlignBit == 1
    ensures w % LeftAlignBit == DutyCycle(angle)
  {
    LeftAlignedBits(DutyCycle(angle));
    LeftAligned(DutyCycle(angle))
  }

  /** The servo app's globals: the one-value sequence_data, the pwm_sequence descriptor, and the PWM requests made so far. */
  class ServoApp {
    const sequenceData: array<Uint16>
    var pwmSequence: Sequence
    var log: seq<Op>

    constructor ()
      ensures fresh(sequenceData)
      ensures sequenceData.Length == 1 && sequenceData[0] == 0
      ensures pwmSequence == Sequence(1, 0, 0)
      ensures log == []
    {
      sequenceData := new Uint16[1](_ => 0);
      pwmSequence := Sequence(1, 0, 0);
      log := [];
    }

    /**
     * set_servo: stores the left-aligned duty value for the angle in
     * sequence_data[0] and starts playback of the unchanged descriptor.
     */
    method SetServo(angle: Uint8)
      requires sequenceData.Length == 1
      modifies this, sequenceData
      ensures sequenceData[0] == ServoWord(angle)
      ensures pwmSequence == old(pwmSequence)
      ensures log == old(log) + [WriteSequenceValue(0, ServoWord(angle)), StartPlayback(pwmSequence, 1)]
    {
      var duty := DutyCycle(angle);
      var word := LeftAligned(duty);
      sequenceData[0] := word;
      log := log + [WriteSequenceValue(0, word), StartPlayback(pwmSequence, 1)];
    }

    /**
     * One pass of main's sweep: a uint8_t angle from 0 in steps of 45 while it
     * is at most 180. It visits 0, 45, 90, 135 and 180 and leaves the loop at
     * 225, which a uint8_t holds without wrapping.
     */
    method Sweep() returns (visited: seq<Uint8>, exitAngle: Uint8)
      requires sequenceData.Length == 1
      modifies this, sequenceData
      ensures visited == SweepAngles
      ensures exitAngle == 225
      ensures sequenceData[0] == ServoWord(180)
      ensures pwmSequence == old(pwmSequence)
      ensures log == old(log) + SweepLog(visited, pwmSequence)
    {
      visited := [];
      var angle: Uint8 := 0;
      while angle <= MaxAngle
        invariant |visited| <= 5 && angle == 45 * |visited|
        invariant visited == SweepAngles[..|visited|]
        invariant visited != [] ==> sequenceData[0] == ServoWord(visited[|visited| - 1])
        invariant pwmSequence == old(pwmSequence)
        invariant log == old(log) + SweepLog(visited, pwmSequence)
        decreases 225 - angle
      {
        SetServo(angle);
        SweepLogAppend(visited, angle, pwmSequence);
        assert SweepAngles[..|visited| + 1] == visited + [angle];
        visited := visited + [angle];
        assert angle + 45 < 0x100;
        angle := (angle + 45) % 0x100;  // angle += 45 on a uint8_t
      }
      assert |visited| == 5;
      exitAngle := angle;
    }
  }

  /** The angles one pass of the sweep visits. */
  const SweepAngles: seq<Uint8> := [0, 45, 90, 135, 180]

  /** The PWM requests set_servo makes for each angle in turn. */
  function SweepLog(angles: seq<Uint8>, sequence: Sequence): seq<Op>
  {
    if angles == [] then []
    else
      var last := angles[|angles| - 1];
      SweepLog(angles[..|angles| - 1], sequence) + [WriteSequenceValue(0, ServoWord(last)), StartPlayback(sequence, 1)]
  }

  lemma SweepLogAppend(angles: seq<Uint8>, angle: Uint8, sequence: Sequence)
    ensures SweepLog(angles + [angle], sequence)
         == SweepLog(angles, sequence) + [WriteSequenceValue(0, ServoWord(angle)), StartPlayback(sequence, 1)]
  {
    assert (angles + [angle])[..|angles|] == angles;
  }
}
