/**
 * The C and Linux vocabulary the plugin is written in: errno values, the
 * integer ranges of the C types it computes with, bytes, and the
 * "value or negative status" shape of the host's getters.
 */
module Posix {

  // Linux errno numbers; the plugin returns their negations.
  const ENOENT: int := 2
  const EAGAIN: int := 11
  const ENOMEM: int := 12
  const EINVAL: int := 22

  /** The largest value of a C `int`. */
  const IntMax: int := 0x7fff_ffff

  /** A negative status code, as every failing C call here returns. */
  type NegInt = x: int | x < 0 witness -1

  /** `unsigned int` (32 bits). */
  type Uint32 = x: int | 0 <= x < 0x1_0000_0000

  /** `unsigned long`, i.e. `snd_pcm_uframes_t` on a 64-bit host. */
  type Uint64 = x: int | 0 <= x < 0x1_0000_0000_0000_0000

  /** One byte of a PCM buffer or of a dump file. */
  newtype byte = b: int | 0 <= b < 0x100

  /** What a getter of the host reports: a value, or a negative error code. */
  datatype Result<+T> = Ok(value: T) | Err(code: NegInt)
}
