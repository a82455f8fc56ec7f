/**
 * Common vocabulary of the inference library: status codes, element data
 * types, fixed-width integers and an optional value.
 */
module Common {

  /** A status code as returned by every operation of the library.
      Success and InvalidValue are the two codes the modelled code produces
      itself; the others stand for any status a foreign helper may hand back. */
  datatype RetCode =
    | Success
    | OtherError
    | Unsupported
    | OutOfMemory
    | InvalidValue
    | Exists
    | NotFound
    | PermissionDenied

  /** Element data type of a tensor. */
  datatype DataType =
    | Unknown
    | Uint8 | Uint16 | Uint32 | Uint64
    | Float16 | Float32 | Float64 | Bfloat16
    | Int4b | Int8 | Int16 | Int32 | Int64
    | Bool
    | Complex64 | Complex128

  /** A signed 32-bit integer, the element type of integer-list attributes. */
  newtype int32 = x: int | -0x8000_0000 <= x < 0x8000_0000

  /** A signed 64-bit integer, the element type of tensor dimensions. */
  newtype int64 = x: int | -0x8000_0000_0000_0000 <= x < 0x8000_0000_0000_0000

  datatype Option<T> = None | Some(value: T)
}
