/**
 * The square-tone app: a tone frequency becomes a PWM countertop on a 500 kHz
 * clock, clamped to the 15-bit register range, with a 25% duty value.
 */
module SquareTone {
  import opened Pwm

  const BaseClockHz := 500000
  const MinCountertop := 3
  const MaxCountertop := 0x7FFF  // COUNTERTOP is 15 bits wide

  /** 500000 / frequency in unsigned 32-bit arithmetic; a zero frequency would divide by zero. */
  function RawCountertop(frequency: Uint16): (c: Uint32)
    requires frequency != 0
    ensures c * frequency <= BaseClockHz < (c + 1) * frequency
  {
    BaseClockHz / frequency
  }

  /**
   * play_tone's countertop: the raw value raised to at least 3, then lowered to
   * at most 0x7FFF, in that order.
   */
  function Countertop(frequency: Uint16): (c: Uint32)
    requires frequency != 0
    ensures MinCountertop <= c <= MaxCountertop
    ensures MinCountertop <= RawCountertop(frequency) <= MaxCountertop ==> c == RawCountertop(frequency)
  {
    var raw := RawCountertop(frequency);
    var atLeastMin := if raw < MinCountertop then MinCountertop else raw;
    if atLeastMin > MaxCountertop then MaxCountertop else atLeastMin
  }

  /** No uint16_t frequency gives a raw countertop below 7, so the lower clamp never fires. */
  lemma LowerClampNeverFires(frequency: Uint16)
    requires frequency != 0
    ensures RawCountertop(frequency) >= 7 > MinCountertop
  {
  }

  /** The upper clamp fires exactly for the frequencies 1 to 15. */
  lemma UpperClampFiresIff(frequency: Uint16)
    requires frequency != 0
    ensures RawCountertop(frequency) > MaxCountertop <==> frequency <= 15
  {
    var c := RawCountertop(frequency);
    if frequency <= 15 {
      assert (c + 1) * frequency <= (c + 1) * 15;
    } else {
      assert c * 16 <= c * frequency;
    }
  }

  /** So the countertop is the raw quotient from 16 Hz up, and 0x7FFF below. */
  lemma CountertopCases(frequency: Uint16)
    requires frequency != 0
    ensures frequency >= 16 ==> Countertop(frequency) == BaseClockHz / frequency
    ensures frequency <= 15 ==> Countertop(frequency) == MaxCountertop
  {
    LowerClampNeverFires(frequency);
    UpperClampFiresIff(frequency);
  }

  /**
   * The 25% duty value countertop / 4, cast to the 16-bit sequence value type:
   * below the countertop, at most 8191, and so with bit 15 clear.
   */
  function Duty(frequency: Uint16): (d: Uint16)
    requires frequency != 0
    ensures d * 4 <= Countertop(frequency) < d * 4 + 4
    ensures d < Countertop(frequency)
    ensures d <= 8191 && d / 0x8000 == 0
  {
    ToUint16(Countertop(frequency) / 4)
  }

  /** The square-tone app's globals: the COUNTERTOP register, sequence_data, pwm_sequence and the PWM requests made. */
  class SquareToneApp {
    var countertop: Uint16
    const sequenceData: array<Uint16>
    var pwmSequence: Sequence
    var log: seq<Op>

    /** The state pwm_init leaves: COUNTERTOP 1000, sequence_data zeroed, nothing requested yet. */
    constructor ()
      ensures fresh(sequenceData)
      ensures countertop == 1000
      ensures sequenceData.Length == 1 && sequenceData[0] == 0
      ensures pwmSequence == Sequence(1, 0, 0)
      ensures log == []
    {
      countertop := 1000;
      sequenceData := new Uint16[1](_ => 0);
      pwmSequence := Sequence(1, 0, 0);
      log := [];
    }

    /**
     * play_tone: stops the PWM, writes the clamped countertop to COUNTERTOP,
     * stores a quarter of that same value in sequence_data[0], and starts
     * playback of the unchanged descriptor, in that order.
     */
    method PlayTone(frequency: Uint16)
      requires frequency != 0
      requires sequenceData.Length == 1
      modifies this, sequenceData
      ensures countertop == Countertop(frequency)
      ensures sequenceData[0] == Duty(frequency) && sequenceData[0] * 4 <= countertop
      ensures pwmSequence == old(pwmSequence)
      ensures log == old(log) + [Stop, WriteCountertop(countertop), WriteSequenceValue(0, sequenceData[0]), StartPlayback(pwmSequence, 1)]
    {
      log := log + [Stop];
      var top := Countertop(frequency);
      countertop := top;
      log := log + [WriteCountertop(top)];
      var duty := ToUint16(top / 4);
      sequenceData[0] := duty;
      log := log + [WriteSequenceValue(0, duty)];
      log := log + [StartPlayback(pwmSequence, 1)];
    }
  }
}
