/**
 * The C integer types the micro:bit apps compute with, and the PWM peripheral
 * operations they perform, reduced to a log of abstract operations.
 */
module Pwm {
  type Uint8 = x: int | 0 <= x < 0x100
  type Uint16 = x: int | 0 <= x < 0x1_0000
  type Uint32 = x: int | 0 <= x < 0x1_0000_0000

  /** Conversion to a 16-bit unsigned C type (such as nrf_pwm_values_common_t): keeps the low 16 bits. */
  function ToUint16(x: nat): (r: Uint16)
    ensures x < 0x1_0000 ==> r == x
    ensures (x - r) % 0x1_0000 == 0
  {
    x % 0x1_0000
  }

  /** The result of unsigned 32-bit arithmetic: the exact value reduced modulo 2^32. */
  function WrapUint32(x: nat): (r: Uint32)
    ensures x < 0x1_0000_0000 ==> r == x
    ensures (x - r) % 0x1_0000_0000 == 0
  {
    x % 0x1_0000_0000
  }

  /** An nrf_pwm_sequence_t descriptor without its pointer to the values it plays. */
  datatype Sequence = Sequence(length: nat, repeats: nat, endDelay: nat)

  /** What an app asks of the PWM peripheral, in the order it asks. */
  datatype Op =
    | Stop                                                  // nrfx_pwm_stop, waiting until stopped
    | WriteCountertop(top: nat)                             // NRF_PWM0->COUNTERTOP = value
    | WriteSequenceValue(index: nat, value: Uint16)         // sequence_data[index] = value
    | StartPlayback(sequence: Sequence, playbackCount: nat) // nrfx_pwm_simple_playback
}
