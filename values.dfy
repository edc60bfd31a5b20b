/** Java's primitive ranges and the Option/Result wrappers the rest of the model uses. */
module Values {

  /** Java `long`: a 64-bit two's-complement integer. */
  type long = x: int | -0x8000_0000_0000_0000 <= x <= 0x7FFF_FFFF_FFFF_FFFF

  /** Java `int`: a 32-bit two's-complement integer. */
  type int32 = x: int | -0x8000_0000 <= x <= 0x7FFF_FFFF

  const LongMin: long := -0x8000_0000_0000_0000
  const LongMax: long := 0x7FFF_FFFF_FFFF_FFFF

  /** A value that may be absent (Java `null`, Guava `Optional`). */
  datatype Option<+T> = None | Some(value: T)

  /** The outcome of an operation that may throw. */
  datatype Result<+T, +E> = Success(value: T) | Failure(error: E)
}
