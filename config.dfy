/**
 * The static topology read once at startup, in the shape the live-state code
 * consumes: devices keyed by name, coils keyed by name, each coil naming its
 * device and carrying a list of tag labels.
 */
module Config {
  import opened Modbus

  /** The value a coil should be driven to when coil, device or bus is reset. */
  datatype ResetCoilStatus = On | Off | DoNotSet

  /** The configured reset policy when a coil does not name one. */
  const DefaultResetCoilStatus: ResetCoilStatus := DoNotSet

  datatype DeviceConfig = DeviceConfig(description: string, modbusAddress: u8)

  datatype CoilConfig = CoilConfig(
    device: string,
    address: u16,
    description: string,
    defaultStatus: ResetCoilStatus,
    tags: seq<string>)

  datatype Config = Config(devices: map<string, DeviceConfig>, coils: map<string, CoilConfig>)

  /** Coil `c` is configured but names a device that is not. */
  predicate Orphan(config: Config, c: string) {
    c in config.coils && config.coils[c].device !in config.devices
  }
}
