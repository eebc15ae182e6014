/**
 * Shared value types: optional values, the fixed-width integers the source
 * uses, and the 64-bit view identifier.
 */
module Types {
  datatype Option<T> = None | Some(value: T)

  const U32_LIMIT: nat := 0x1_0000_0000
  const U64_LIMIT: nat := 0x1_0000_0000_0000_0000

  /** `uint32_t` */
  type u32 = n: nat | n < U32_LIMIT
  /** `uint64_t` */
  type u64 = n: nat | n < U64_LIMIT
  /** One byte of a pixel buffer. */
  newtype byte = b: int | 0 <= b < 256

  /** `PrismaViewId` is a `uint64_t`; the id generator never returns 0. */
  type ViewId = u64

  /** Opaque identity of an object owned by the engine or the device (a handle, never null here). */
  type Handle = nat
}
