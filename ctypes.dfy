/** The C integer types the modelled code stores values in. */
module CTypes {

  /** C `unsigned` on the target: a 32-bit unsigned integer. */
  type U32 = n: int | 0 <= n < 0x1_0000_0000

  /** A 32-bit signed integer, such as SDL's `Sint32`. */
  type I32 = n: int | -0x8000_0000 <= n < 0x8000_0000
}
