/** Machine-level types shared by the configuration model: the fixed-width
    integers of the C++ source and an option type for nullable values. */
module Machine {

  /** `reg_t`: a 64-bit unsigned register-width integer. */
  newtype RegT = x: int | 0 <= x < 0x1_0000_0000_0000_0000

  /** C++ `unsigned` on the simulator's hosts: 32 bits. */
  newtype Uint32 = x: int | 0 <= x < 0x1_0000_0000

  /** C++ `int` on the simulator's hosts: 32-bit two's complement. */
  newtype Int32 = x: int | -0x8000_0000 <= x < 0x8000_0000

  /** A value that may be absent: `std::optional`, or a `const char *` that may be null. */
  datatype Option<+T> = None | Some(value: T)
}
