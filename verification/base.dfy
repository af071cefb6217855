/** Machine types shared by every module: the C `unsigned` word and an optional value
    (a nullable pointer that is either absent or names one slot). */
module Base {
  /** C `unsigned int` on the targets the program is built for: 32 bits. */
  newtype u32 = x: int | 0 <= x < 0x1_0000_0000

  const UINT_MAX: int := 0xFFFF_FFFF

  datatype Option<T> = None | Some(value: T)
}
