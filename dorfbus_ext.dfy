/**
 * The relay-card extension of the Modbus client (crate dorfbusext): reading a
 * card's hardware version and setting its bus address. Each operation is one
 * bus exchange; the reply of the transport is a parameter, and the frames the
 * operation puts on the bus are part of its result.
 */
module DorfbusExt {
  import opened Wrappers
  import opened Modbus

  /** Holding register that holds a card's hardware version. */
  const HardwareVersionRegister: u16 := 0x20

  /** Holding register that a card's new bus address is written to. */
  const DeviceAddressRegister: u16 := 0x4000

  /** The one request `read_hardware_version` issues: one register at 0x20. */
  const HardwareVersionRead: Request := ReadHoldingRegisters(HardwareVersionRegister, 1)

  datatype DorfbusError =
    | ModbusEmptyResponse
    | Io(error: IoError)

  /** What one call put on the bus, and what it returned. */
  datatype Exchange<T> = Exchange(sent: seq<Frame>, result: Result<T, DorfbusError>)

  /**
   * `read_hardware_version` on a context whose selected slave is `slave`,
   * given the transport's reply to the register read.
   */
  function ReadHardwareVersion(slave: u8, reply: IoResult<seq<u16>>): (x: Exchange<u16>)
    ensures x.sent == [Frame(slave, ReadHoldingRegisters(0x20, 1))]
    ensures x.result.Ok? <==> reply.Ok? && |reply.value| > 0
    ensures x.result.Ok? ==> x.result.value == reply.value[0]
    ensures reply.Ok? && reply.value == [] ==> x.result == Err(ModbusEmptyResponse)
    ensures reply.Err? ==> x.result == Err(Io(reply.error))
  {
    var sent := [Frame(slave, HardwareVersionRead)];
    match reply
    case Err(e) => Exchange(sent, Err(Io(e)))
    case Ok(registers) =>
      var first := if registers == [] then None else Some(registers[0]);
      match first
      case None => Exchange(sent, Err(ModbusEmptyResponse))
      case Some(v) => Exchange(sent, Ok(v))
  }

  /**
   * `set_device_address` on a context whose selected slave is `slave`, given
   * the transport's reply to the register write. An `InvalidData` error
   * counts as success; any other error is passed on.
   */
  function SetDeviceAddress(slave: u8, addr: u8, reply: IoResult<()>): (x: Exchange<()>)
    ensures |x.sent| == 1 && x.sent[0].slave == slave
    ensures x.sent[0].request.WriteSingleRegister? && x.sent[0].request.address == 0x4000
    ensures x.sent[0].request.value as int == addr as int
    ensures x.result.Ok? <==> reply.Ok? || reply.error.kind == InvalidData
    ensures x.result.Err? ==> x.result.error == Io(reply.error)
  {
    var sent := [Frame(slave, WriteSingleRegister(DeviceAddressRegister, addr as u16))];
    match reply
    case Ok(_) => Exchange(sent, Ok(()))
    case Err(e) =>
      if e.kind == InvalidData then Exchange(sent, Ok(())) else Exchange(sent, Err(Io(e)))
  }
}
