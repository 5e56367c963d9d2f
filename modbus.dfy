/**
 * The boundary to the Modbus client library and to std::io: fixed-width
 * integers, I/O errors, and the request frames a client puts on the bus.
 * The wire encoding itself is not modelled; a frame is the abstract request.
 */
module Modbus {
  import opened Wrappers

  /** Rust `u8`: a single-byte slave (device) address. */
  newtype u8 = x: int | 0 <= x < 0x100

  /** Rust `u16`: a Modbus register address or register value. */
  newtype u16 = x: int | 0 <= x < 0x1_0000

  /** The kinds of std::io::Error the model distinguishes; the rest are `Other`. */
  datatype IoErrorKind = InvalidData | InvalidInput | TimedOut | UnexpectedEof | BrokenPipe | Other

  datatype IoError = IoError(kind: IoErrorKind, message: string)

  type IoResult<T> = Result<T, IoError>

  /** The three Modbus functions this system issues. */
  datatype Request =
    | ReadHoldingRegisters(address: u16, count: u16)
    | WriteSingleRegister(address: u16, value: u16)
    | WriteSingleCoil(address: u16, on: bool)

  /** A request addressed to the slave currently selected on the client context. */
  datatype Frame = Frame(slave: u8, request: Request)
}
