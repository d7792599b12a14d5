/** Types shared by every module: error codes, results and fixed-width integers. */
module Base {

  /** The error codes of `Status`, in the order of their numeric values. */
  datatype ErrorCode =
    | Ok
    | InvalidArgument
    | NotFound
    | AlreadyExists
    | IoError
    | ParseError
    | ConfigError
    | InternalError
    | ResourceExhausted

  datatype Option<+T> = None | Some(value: T)

  datatype Result<+T> = Success(value: T) | Failure(error: ErrorCode)

  type Byte = b: int | 0 <= b < 0x100
  type Bytes = seq<Byte>

  const TWO_POW_16: int := 0x1_0000
  const TWO_POW_32: int := 0x1_0000_0000
  const TWO_POW_63: int := 0x8000_0000_0000_0000
  const TWO_POW_64: int := 0x1_0000_0000_0000_0000

  type Uint16 = n: int | 0 <= n < TWO_POW_16
  type Uint32 = n: int | 0 <= n < TWO_POW_32
  type Uint64 = n: int | 0 <= n < TWO_POW_64
  type Int64 = n: int | -TWO_POW_63 <= n < TWO_POW_63

  /** A (pointer, length) argument: the pointer may be null with any length. */
  datatype RawBytes = NullPointer(len: nat) | View(bytes: Bytes)
}
