# dorfbusd live bus state, modelled in Dafny

dorfbusd is a gateway in front of Modbus-RTU relay cards ("devices") on one
serial bus. Each card drives a number of relays ("coils"), and coils carry tag
labels. This project models the daemon's live-state layer (`bus_state.rs`)
and the two register-level helpers of the `dorfbusext` crate, and proves what
they promise.

- **Construction.** `BusState.TryFrom` builds the three maps from a
  configuration: devices by name, coils by name (each linked to its device),
  and the tag index (label to coils). Construction fails as a whole when a
  coil names a missing device.
- **State machine.** A coil starts `Unknown`. A confirmed write makes it `On`
  or `Off`. A failed or timed-out write makes it `Unknown` again.
- **Device probe.** A device probe reads the card's hardware version. The bus
  probe visits the devices in map order and stops at the first failed probe.
- **Reset.** Reset forgets every version, seen flag and coil status.

How the Rust is modelled:
- **Mutable state.** The daemon updates its state in place through
  `RwLock`/`AtomicBool` cells. In the model, `DeviceState` and `CoilState`
  are classes whose `var` fields are those cells.
- **The maps.** `BusState` keeps its three maps as `const` fields. The Rust
  never changes them after construction, so their key sets cannot change.
- **Sharing.** A coil is shared (`Arc`) between `coils` and `tags` and is
  cloned into the write task with the same status cell. In the model it is one
  object reached from both maps, and `BusState.Valid` states this.
- **Map order.** A `BTreeMap<String, _>` is iterated in ascending key order.
  Module `Ordered` defines that order on strings, character by character.
  UTF-8 preserves code-point order, so this matches Rust's byte order.
  `Ordered.Keys` iterates a map's keys in that order.
- **Bus exchanges.** Each bus exchange is one atomic step. The transport's
  reply is a parameter: `Timed<IoResult<...>>`, where `TimedOut` stands for
  the one-second timeout firing. The bus probe receives the reply at every
  address as a function `bus`. Every operation returns the Modbus frames it
  puts on the bus, each addressed to the selected slave.

Modules:
- `Wrappers`: `Option` and `Result`.
- `Modbus`: `u8`, `u16`, I/O errors, requests and frames.
- `DorfbusExt`: `dorfbusext/src/lib.rs`.
- `Ordered`: the BTreeMap key order.
- `Config`: the configuration shape that `bus_state.rs` reads.
- `Tags`: the tag index as a pure function, with its reference description.
- `Dorfbusd`: `dorfbusd/src/bus_state.rs`.

## Model

| member | source | states |
|---|---|---|
| DorfbusExt.ReadHardwareVersion | dorfbusext/src/lib.rs:21-29 | Sends exactly one read of holding register 0x20, count 1, to the selected slave. The result is Ok iff the transport answered with at least one register, and then it is the first register. An empty answer gives `ModbusEmptyResponse`; a transport error gives `Io` with that error. |
| DorfbusExt.SetDeviceAddress | dorfbusext/src/lib.rs:31-37 | Sends exactly one write of `addr`, widened to 16 bits, to register 0x4000. The result is Ok iff the write succeeded or failed with `InvalidData`. Any other error is returned as `Io` with that error. |
| Ordered.AscendingKeys | dorfbusd/src/bus_state.rs:27-29 | The iteration sequence of a key set holds exactly the set's keys, one position per key. |
| Ordered.AscendingKeysSorted | dorfbusd/src/bus_state.rs:27-29 | The iteration sequence is strictly ascending, so every key occurs once and in order. |
| Ordered.Keys | dorfbusd/src/bus_state.rs:271 | Iterating a map by repeatedly taking its least remaining key yields exactly the ascending key sequence. |
| Ordered.BelowTotal | dorfbusd/src/bus_state.rs:27-29 | The string order is total: any two strings are equal or one sorts before the other. |
| Ordered.BelowTransitive | dorfbusd/src/bus_state.rs:27-29 | The string order is transitive. |
| Ordered.BelowIrreflexive | dorfbusd/src/bus_state.rs:27-29 | No string sorts before itself. |
| Tags.LookupPush | dorfbusd/src/bus_state.rs:246-247 | `entry(t).or_default().push(n)` creates the list of `t` if missing and appends `n`, leaving every other label's list and key untouched. |
| Tags.AddCoilKeys | dorfbusd/src/bus_state.rs:245-248 | After one coil is pushed under its tag list, the keys are the old keys plus that coil's labels. |
| Tags.AddCoilAt | dorfbusd/src/bus_state.rs:245-248 | Pushing one coil extends each label's list by that coil, once per occurrence of the label in its tag list. |
| Tags.IndexIsMembers | dorfbusd/src/bus_state.rs:243-249 | The index built by the nested loops equals the reference `Members`. A label is a key exactly when its list is non-empty. |
| Tags.MembersContain | dorfbusd/src/bus_state.rs:243-249 | A coil is listed under `t` exactly when it was visited and its tag list contains `t`. |
| Tags.MembersMultiplicity | dorfbusd/src/bus_state.rs:243-249 | When the visited names are distinct, a coil is listed under `t` as many times as `t` occurs in its tag list. |
| Tags.MembersAscending | dorfbusd/src/bus_state.rs:243-249 | Visiting coils in ascending name order gives every list in ascending name order. |
| Tags.TagIndexExact | dorfbusd/src/bus_state.rs:243-249 | In a configuration's tag index, a label is a key iff some coil carries it. Each list is non-empty, ascending, and holds exactly the coils carrying the label, each once per occurrence. |
| Dorfbusd.FromBool | dorfbusd/src/bus_state.rs:180-188 | A written value never maps to Unknown, and it maps to On exactly when it is true. |
| Dorfbusd.Probe | dorfbusd/src/bus_state.rs:62-76 | A probe reply means one of three things. A timeout is no answer. A non-empty register answer is a version, namely its first register. Anything else is a failure carrying the `read_hardware_version` error. |
| Dorfbusd.ProbedCount | dorfbusd/src/bus_state.rs:271-276 | A sequential probe that stops at the first failure visits a bounded prefix. Nothing before its last device failed. If the prefix is shorter than the sequence, its last device failed. It is empty only for no devices. |
| Dorfbusd.ProbedCountStops | dorfbusd/src/bus_state.rs:273 | If the first failure is at position `i`, exactly `i + 1` devices are visited. |
| Dorfbusd.ProbedCountAll | dorfbusd/src/bus_state.rs:271-276 | With no failure, every device is visited. |
| Dorfbusd.DeviceState.constructor | dorfbusd/src/bus_state.rs:206-211 | A new device state has its name and configuration, version None and seen false. |
| Dorfbusd.DeviceState.Reset | dorfbusd/src/bus_state.rs:52-55 | Afterwards version is None and seen is false. |
| Dorfbusd.DeviceState.CheckStateFromDevice | dorfbusd/src/bus_state.rs:57-79 | Sends one version read to the device's own address. A version sets version to it and seen to true, and returns Ok. A timeout changes nothing and returns Ok. A failure changes nothing and returns the error. |
| Dorfbusd.CoilState.constructor | dorfbusd/src/bus_state.rs:231-236 | A new coil state has its name, configuration, device link and the default status Unknown. |
| Dorfbusd.CoilState.Reset | dorfbusd/src/bus_state.rs:96-98 | Afterwards the status is Unknown. |
| Dorfbusd.CoilState.AsUpdate | dorfbusd/src/bus_state.rs:100-108 | The update carries the coil's name, its device's name and address, the coil's address and its current status. |
| Dorfbusd.CoilState.SetCoil | dorfbusd/src/bus_state.rs:111-149 | Sends one coil write, with the coil's address, to its device. A confirmed write sets the status to `FromBool(value)` and returns the updated coil. A transport error sets Unknown and returns that error. A timeout sets Unknown and returns `Timeout`. The status is Unknown exactly when an error is returned. |
| Dorfbusd.CoilState.GetCoil | dorfbusd/src/bus_state.rs:152-154 | Always Ok. Returns the coil's name, device name, device address, coil address and status, and changes nothing. |
| Dorfbusd.PushStep | dorfbusd/src/bus_state.rs:246-247 | Pushing a coil object onto a tag list pushes its name in the by-name view, and keeps every entry a registered coil. |
| Dorfbusd.BusState.TryFrom | dorfbusd/src/bus_state.rs:199-256 | Fails iff some coil names a device that is not configured. The error names the least such coil and its device. On success, the devices and coils have exactly the configured names and configurations, all state is initial and freshly allocated, the links are consistent (`Valid`), and the tag index is `Tags.TagIndex` of the configuration. |
| Dorfbusd.BusState.BuildDevices | dorfbusd/src/bus_state.rs:200-214 | One fresh, unprobed device state per configured device, under its own name. |
| Dorfbusd.BusState.BuildCoils | dorfbusd/src/bus_state.rs:216-241 | Coils are visited in ascending order; the first whose device is missing fails the whole map, and that is the least such coil. Otherwise there is one fresh Unknown coil per configured coil, linked to the device registered under its device name. |
| Dorfbusd.BusState.FirstOrphanIsLeast | dorfbusd/src/bus_state.rs:216-241 | The first coil with a missing device met in ascending order is the least such coil. |
| Dorfbusd.BusState.BuildTags | dorfbusd/src/bus_state.rs:243-249 | The nested loops build the index `Tags.IndexOf` of the visited coils, and every entry is the coil object registered under its name. |
| Dorfbusd.BusState.AddTags | dorfbusd/src/bus_state.rs:245-248 | The inner loop pushes one coil under each label of its tag list, as `Tags.AddCoil`. |
| Dorfbusd.BusState.Reset | dorfbusd/src/bus_state.rs:263-266 | Every device has version None and seen false; every coil has status Unknown, and so does every coil reached through the tag index. |
| Dorfbusd.BusState.ResetDevices | dorfbusd/src/bus_state.rs:264 | Resetting the devices one by one leaves every device reset. |
| Dorfbusd.BusState.ResetCoils | dorfbusd/src/bus_state.rs:265 | Resetting the coils one by one leaves every coil reset. |
| Dorfbusd.BusState.CheckStateFromDevice | dorfbusd/src/bus_state.rs:268-277 | Devices are probed in ascending name order up to the first failed probe. The frames sent are one hardware-version read (register 0x20, count 1) per visited device, addressed to that device, in visiting order. The result is Err iff the last visited device failed, and then it is that device's error. Each visited device is updated as by its own probe of the reply at its address; the others are untouched. |
| Dorfbusd.BusState.ProbeInOrder | dorfbusd/src/bus_state.rs:271-276 | The same loop over a given order of distinct devices. |
| Dorfbusd.BusState.ProbeStep | dorfbusd/src/bus_state.rs:272-273 | Probing the next device moves exactly that device from "not yet probed" to "probed", and sends its frame. |

## Left out

- The async machinery is not modelled: `tokio::spawn`, the `oneshot` channel, the bus mutex and the one-second `timeout`. Each bus exchange is one atomic step with a given reply, and `TimedOut` stands for the timeout firing.
- Dorfbusd.CoilState.SetCoil: the `rx.await?` error is not modelled. It happens when the spawned task dies before answering.
- Logging (`info!`, `warn!`) is left out, because it has no effect on state.
- Serialization and JSON schema derives are left out.
- The Modbus wire encoding is left out. The `tokio_modbus` calls are abstract requests.
- The `set_slave` call is not a separate step. Its effect is the slave address on each frame sent.
- `StateError` is not defined in any of the code modelled here. It is modelled with the two cases `set_coil` produces: `Timeout`, and `BusError` for a transport error converted with `into()`.
- Dorfbusd.BusState.TryFrom: the error is `anyhow` text in the source. The model keeps the two things that text names, the coil and the missing device (`UnknownDevice`).
- The configuration shape is the one `bus_state.rs` reads: devices with an 8-bit address, and coils keyed by name carrying a device name, an address and tags. `dorfbusd/src/config.rs` declares a different shape, which is not part of this model. `ResetCoilStatus` and its default `DoNotSet` are carried as data only.
- `CoilValue`'s `Default` is the constant `DefaultCoilValue` (Unknown). It is what the coil constructor uses.
- `state.get_tag`, `state.set_tag`, tag fan-out and device-address reassignment are not modelled, because no code modelled here defines them.
- Strings are compared as sequences of characters. Rust compares UTF-8 bytes, which gives the same order.
- The resync follows `BusState::check_state_from_device` as written. It does not reset first. It stops at the first device whose probe returns an error, such as an empty response or a transport error. A timed-out device only logs, leaves that device unchanged, and the loop goes on.
- Dorfbusd.BusState.CheckStateFromDevice: the bus is a function from a device address to one reply, so two configured devices that share a Modbus address get the same reply in the model, although the real bus answers each read separately. No proved property depends on the two replies being equal.
