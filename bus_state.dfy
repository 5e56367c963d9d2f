/**
 * The live state of the bus (dorfbusd's bus_state): one DeviceState per
 * configured device, one CoilState per configured coil linked to its device,
 * and the tag index over the coils. The maps are fixed once built; what
 * changes are the cells inside them (a device's version and seen flag, a
 * coil's status), and a CoilState is shared, not copied, between `coils` and
 * `tags`, so a write through one is seen through the other.
 *
 * Every bus exchange is one atomic step whose reply is a parameter (the
 * transport's answer, or a timeout); the requests put on the bus are returned.
 */
module Dorfbusd {
  import opened Wrappers
  import opened Modbus
  import opened DorfbusExt
  import opened Ordered
  import Config
  import Tags

  datatype CoilValue = On | Off | Unknown

  /** A coil's status before any write, and after anything that leaves it uncertain. */
  const DefaultCoilValue: CoilValue := Unknown

  /** `CoilValue::from(bool)`: the status a confirmed write of `v` establishes. */
  function FromBool(v: bool): (c: CoilValue)
    ensures c != Unknown
    ensures c == On <==> v
  {
    if v then On else Off
  }

  /** The answer about one coil: its name, its device's name and address, its address and status. */
  datatype CoilUpdate = CoilUpdate(name: string, device: string, deviceId: u8, coilId: u16, status: CoilValue)

  /** The outcome of awaiting one bus exchange under the one-second timeout. */
  datatype Timed<T> = InTime(value: T) | TimedOut

  /**
   * State-layer errors of a coil write. `StateError` is declared in `crate::state`, which is
   * not modelled; only the two cases `set_coil` produces are kept.
   */
  datatype StateError = Timeout | BusError(error: IoError)

  datatype ConfigError = UnknownDevice(coil: string, device: string)

  /** What one hardware-version probe learned. */
  datatype Probed = Version(version: u16) | NoAnswer | ProbeFailed(error: DorfbusError)

  /** The meaning of a probe reply: a version, a timeout, or an error. */
  function Probe(reply: Timed<IoResult<seq<u16>>>): (p: Probed)
    ensures p.NoAnswer? <==> reply.TimedOut?
    ensures p.Version? <==> reply.InTime? && reply.value.Ok? && reply.value.value != []
    ensures p.Version? ==> p.version == reply.value.value[0]
    ensures p.ProbeFailed? ==> p.error == if reply.value.Err? then Io(reply.value.error) else ModbusEmptyResponse
  {
    match reply
    case TimedOut => NoAnswer
    case InTime(raw) =>
      var x := ReadHardwareVersion(0, raw);
      if x.result.Ok? then Version(x.result.value) else ProbeFailed(x.result.error)
  }

  /** A device's version after a probe: the one read, or as before. */
  function NextVersion(version: Option<u16>, p: Probed): Option<u16> {
    if p.Version? then Some(p.version) else version
  }

  /** A device's seen flag after a probe: set when a version was read, otherwise as before. */
  function NextSeen(seen: bool, p: Probed): bool {
    p.Version? || seen
  }

  /** The outcomes of probing the devices at `addrs`, in that order. */
  function Probes(addrs: seq<u8>, bus: u8 -> Timed<IoResult<seq<u16>>>): (ps: seq<Probed>)
    ensures |ps| == |addrs| && forall i :: 0 <= i < |addrs| ==> ps[i] == Probe(bus(addrs[i]))
  {
    seq(|addrs|, i requires 0 <= i < |addrs| => Probe(bus(addrs[i])))
  }

  /**
   * How many devices a sequential probe with outcomes `ps` visits when it
   * stops at the first failed probe: up to and including that one, or all.
   */
  function ProbedCount(ps: seq<Probed>): (k: nat)
    ensures k <= |ps|
    ensures forall i :: 0 <= i < k - 1 ==> !ps[i].ProbeFailed?
    ensures k < |ps| ==> 0 < k && ps[k - 1].ProbeFailed?
    ensures k == 0 <==> ps == []
    decreases |ps|
  {
    if ps == [] then 0
    else if ps[0].ProbeFailed? then 1
    else 1 + ProbedCount(ps[1..])
  }

  /** The frames a sequential probe of the devices at `addrs` puts on the bus. */
  function ProbeFrames(addrs: seq<u8>): (fs: seq<Frame>)
    ensures |fs| == |addrs|
    ensures forall i :: 0 <= i < |addrs| ==> fs[i] == Frame(addrs[i], ReadHoldingRegisters(0x20, 1))
  {
    seq(|addrs|, i requires 0 <= i < |addrs| => Frame(addrs[i], HardwareVersionRead))
  }

  /** No probe in `ps` failed. */
  predicate NoneFailed(ps: seq<Probed>) {
    forall j :: 0 <= j < |ps| ==> !ps[j].ProbeFailed?
  }

  lemma NoneFailedStep(ps: seq<Probed>, i: int)
    requires 0 <= i < |ps| && NoneFailed(ps[..i]) && !ps[i].ProbeFailed?
    ensures NoneFailed(ps[..i + 1])
  {
    assert forall j :: 0 <= j < i ==> ps[..i + 1][j] == ps[..i][j];
  }

  lemma {:induction false} ProbedCountStops(ps: seq<Probed>, i: int)
    requires 0 <= i < |ps| && ps[i].ProbeFailed?
    requires NoneFailed(ps[..i])
    ensures ProbedCount(ps) == i + 1
    decreases i
  {
    if i > 0 {
      assert ps[..i][0] == ps[0];
      var tail := ps[1..][..i - 1];
      forall j | 0 <= j < |tail| ensures !tail[j].ProbeFailed? {
        assert tail[j] == ps[..i][j + 1];
      }
      ProbedCountStops(ps[1..], i - 1);
    }
  }

  lemma {:induction false} ProbedCountAll(ps: seq<Probed>)
    requires NoneFailed(ps)
    ensures ProbedCount(ps) == |ps|
    decreases |ps|
  {
    if ps != [] {
      assert forall j :: 0 <= j < |ps| - 1 ==> ps[1..][j] == ps[j + 1];
      ProbedCountAll(ps[1..]);
    }
  }

  lemma ProbeFramesStep(addrs: seq<u8>, i: int)
    requires 0 <= i < |addrs|
    ensures ProbeFrames(addrs[..i + 1]) == ProbeFrames(addrs[..i]) + [Frame(addrs[i], HardwareVersionRead)]
  {
  }

  class DeviceState {
    const name: string
    const config: Config.DeviceConfig
    var version: Option<u16>
    var seen: bool

    constructor (name: string, config: Config.DeviceConfig)
      ensures this.name == name && this.config == config
      ensures version == None && !seen
    {
      this.name := name;
      this.config := config;
      version := None;
      seen := false;
    }

    /** The device's fields are what a probe with outcome `p` makes of `version0` and `seen0`. */
    ghost predicate ProbedAs(version0: Option<u16>, seen0: bool, p: Probed)
      reads this
    {
      version == NextVersion(version0, p) && seen == NextSeen(seen0, p)
    }

    /** Forget what was learned about the device. */
    method Reset()
      modifies this
      ensures version == None && !seen
    {
      version := None;
      seen := false;
    }

    /**
     * Select the device's address and read its hardware version. A version
     * read marks the device seen; a timeout changes nothing and is not an
     * error; a failed read changes nothing and is returned.
     */
    method CheckStateFromDevice(reply: Timed<IoResult<seq<u16>>>) returns (r: Result<(), DorfbusError>, sent: seq<Frame>)
      modifies this
      ensures sent == [Frame(config.modbusAddress, ReadHoldingRegisters(0x20, 1))]
      ensures Probe(reply).Version? ==> version == Some(Probe(reply).version) && seen && r == Ok(())
      ensures Probe(reply).NoAnswer? ==> version == old(version) && seen == old(seen) && r == Ok(())
      ensures Probe(reply).ProbeFailed? ==>
                version == old(version) && seen == old(seen) && r == Err(Probe(reply).error)
      ensures ProbedAs(old(version), old(seen), Probe(reply))
      ensures r.Err? <==> Probe(reply).ProbeFailed?
    {
      var slave := config.modbusAddress;
      match reply {
        case TimedOut =>
          sent := [Frame(slave, HardwareVersionRead)];
          r := Ok(());
        case InTime(raw) =>
          var x := ReadHardwareVersion(slave, raw);
          sent := x.sent;
          if x.result.Err? {
            r := Err(x.result.error);
            return;
          }
          version := Some(x.result.value);
          seen := true;
          r := Ok(());
      }
    }
  }

  class CoilState {
    const name: string
    const config: Config.CoilConfig
    const device: DeviceState
    var status: CoilValue

    constructor (name: string, config: Config.CoilConfig, device: DeviceState)
      ensures this.name == name && this.config == config && this.device == device
      ensures status == DefaultCoilValue
    {
      this.name := name;
      this.config := config;
      this.device := device;
      status := DefaultCoilValue;
    }

    /** Forget the coil's status. */
    method Reset()
      modifies this
      ensures status == Unknown
    {
      status := Unknown;
    }

    /** The coil as reported to callers. */
    function AsUpdate(): (u: CoilUpdate)
      reads this
      ensures u.name == name && u.device == device.name
      ensures u.deviceId == device.config.modbusAddress && u.coilId == config.address
      ensures u.status == status
    {
      CoilUpdate(name, device.name, device.config.modbusAddress, config.address, status)
    }

    /**
     * Write `value` to the coil on its device. A confirmed write sets the
     * status to match and reports the coil; a failed or timed-out write sets
     * the status to Unknown and reports the error.
     */
    method SetCoil(value: bool, reply: Timed<IoResult<()>>) returns (r: Result<CoilUpdate, StateError>, sent: seq<Frame>)
      modifies this
      ensures sent == [Frame(device.config.modbusAddress, WriteSingleCoil(config.address, value))]
      ensures reply == InTime(Ok(())) ==> status == FromBool(value) && r == Ok(AsUpdate())
      ensures reply.InTime? && reply.value.Err? ==> status == Unknown && r == Err(BusError(reply.value.error))
      ensures reply.TimedOut? ==> status == Unknown && r == Err(Timeout)
      ensures status == Unknown <==> r.Err?
    {
      sent := [Frame(device.config.modbusAddress, WriteSingleCoil(config.address, value))];
      match reply {
        case InTime(Ok(_)) =>
          status := FromBool(value);
          r := Ok(AsUpdate());
        case InTime(Err(err)) =>
          status := Unknown;
          r := Err(BusError(err));
        case TimedOut =>
          status := Unknown;
          r := Err(Timeout);
      }
    }

    /** Report the coil without touching the bus. */
    method GetCoil() returns (r: Result<CoilUpdate, StateError>)
      ensures r.Ok? && r.value.name == name && r.value.device == device.name
      ensures r.value.deviceId == device.config.modbusAddress && r.value.coilId == config.address
      ensures r.value.status == status
    {
      r := Ok(AsUpdate());
    }
  }

  /** The coil names of a tag list. */
  function NamesOf(cs: seq<CoilState>): (ns: seq<string>)
    ensures |ns| == |cs| && forall k :: 0 <= k < |cs| ==> ns[k] == cs[k].name
  {
    seq(|cs|, k requires 0 <= k < |cs| => cs[k].name)
  }

  /** A tag index by coil name. */
  function NamesByTag(tags: map<string, seq<CoilState>>): (m: map<string, seq<string>>)
    ensures m.Keys == tags.Keys && forall t :: t in tags ==> m[t] == NamesOf(tags[t])
  {
    map t | t in tags :: NamesOf(tags[t])
  }

  /** Pushing `c` onto the list of `t` pushes its name in the index by name, and keeps every entry registered. */
  lemma PushStep(tags: map<string, seq<CoilState>>, t: string, c: CoilState, coils: map<string, CoilState>)
    requires RegisteredIn(tags, coils) && c.name in coils && coils[c.name] == c
    ensures var list := if t in tags then tags[t] else [];
            && NamesByTag(tags[t := list + [c]]) == Tags.Push(NamesByTag(tags), t, c.name)
            && RegisteredIn(tags[t := list + [c]], coils)
  {
    var list := if t in tags then tags[t] else [];
    assert NamesOf(list + [c]) == NamesOf(list) + [c.name];
  }

  /** Every entry of the tag index is the coil registered under its name (the same object). */
  ghost predicate RegisteredIn(tags: map<string, seq<CoilState>>, coils: map<string, CoilState>) {
    forall t, k :: t in tags && 0 <= k < |tags[t]| ==> tags[t][k].name in coils && coils[tags[t][k].name] == tags[t][k]
  }

  class BusState {
    const devices: map<string, DeviceState>
    const coils: map<string, CoilState>
    const tags: map<string, seq<CoilState>>

    /**
     * Each entry is registered under its own name, each coil is linked to the
     * device registered under its configured device name, and every tag entry
     * is the coil registered under its name (the same object, not a copy).
     */
    ghost predicate Valid() {
      && DevicesNamed()
      && (forall n :: n in coils ==>
            && coils[n].name == n
            && coils[n].config.device in devices
            && coils[n].device == devices[coils[n].config.device])
      && RegisteredIn(tags, coils)
    }

    /** Each device is registered under its own name (so distinct names are distinct objects). */
    ghost predicate DevicesNamed() {
      forall n :: n in devices ==> devices[n].name == n
    }

    /** The tag index by coil name. */
    ghost function TagNames(): map<string, seq<string>> {
      NamesByTag(tags)
    }

    constructor (devices: map<string, DeviceState>, coils: map<string, CoilState>, tags: map<string, seq<CoilState>>)
      ensures this.devices == devices && this.coils == coils && this.tags == tags
    {
      this.devices := devices;
      this.coils := coils;
      this.tags := tags;
    }

    /**
     * Build the live state of a configuration: a fresh, unprobed DeviceState
     * per device, a fresh CoilState of status Unknown per coil, linked to its
     * device, and the tag index. Fails as a whole, naming the coil and the
     * device, when a coil names a device that is not configured; coils are
     * checked in ascending name order, so the first such coil is named.
     */
    static method TryFrom(config: Config.Config) returns (r: Result<BusState, ConfigError>)
      ensures r.Err? <==> exists c :: Config.Orphan(config, c)
      ensures r.Err? ==>
                && Config.Orphan(config, r.error.coil)
                && r.error.device == config.coils[r.error.coil].device
                && forall c :: Config.Orphan(config, c) ==> AtMost(r.error.coil, c)
      ensures r.Ok? ==>
                && fresh(r.value)
                && r.value.Valid()
                && r.value.devices.Keys == config.devices.Keys
                && (forall n :: n in r.value.devices ==>
                      && fresh(r.value.devices[n])
                      && r.value.devices[n].config == config.devices[n]
                      && r.value.devices[n].version == None
                      && !r.value.devices[n].seen)
                && r.value.coils.Keys == config.coils.Keys
                && (forall n :: n in r.value.coils ==>
                      && fresh(r.value.coils[n])
                      && r.value.coils[n].config == config.coils[n]
                      && r.value.coils[n].status == Unknown)
                && r.value.TagNames() == Tags.TagIndex(config.coils)
    {
      var deviceNames := Keys(config.devices);
      var devices := BuildDevices(config, deviceNames);
      var coilNames := Keys(config.coils);
      AscendingKeysSorted(config.coils.Keys);
      var built := BuildCoils(config, devices, coilNames);
      if built.Err? {
        return Err(built.error);
      }
      var coils := built.value;
      var tags := BuildTags(config, coils, coilNames);
      Tags.TagIndexOf(config.coils, coilNames);
      var b := new BusState(devices, coils, tags);
      assert b.TagNames() == Tags.IndexOf(coilNames, config.coils);
      r := Ok(b);
    }

    /** A fresh, unprobed DeviceState per configured device, under its name; `names` lists the devices. */
    static method BuildDevices(config: Config.Config, names: seq<string>) returns (devices: map<string, DeviceState>)
      requires forall n :: n in names <==> n in config.devices
      ensures devices.Keys == config.devices.Keys
      ensures forall n :: n in devices ==>
                && fresh(devices[n])
                && devices[n].name == n
                && devices[n].config == config.devices[n]
                && devices[n].version == None
                && !devices[n].seen
    {
      devices := map[];
      var i := 0;
      while i < |names|
        invariant 0 <= i <= |names|
        invariant forall j :: 0 <= j < i ==> names[j] in devices
        invariant forall n :: n in devices ==>
                    && n in config.devices
                    && fresh(devices[n])
                    && devices[n].name == n
                    && devices[n].config == config.devices[n]
                    && devices[n].version == None
                    && !devices[n].seen
      {
        var n := names[i];
        var d := new DeviceState(n, config.devices[n]);
        devices := devices[n := d];
        i := i + 1;
      }
      forall n | n in config.devices ensures n in devices {
        var j :| 0 <= j < |names| && names[j] == n;
      }
    }

    /**
     * A fresh CoilState of status Unknown per configured coil, under its name
     * and linked to its device. The coils are visited in the ascending order
     * `names`, and the first one whose device is not configured is reported.
     */
    static method BuildCoils(config: Config.Config, devices: map<string, DeviceState>, names: seq<string>)
      returns (r: Result<map<string, CoilState>, ConfigError>)
      requires devices.Keys == config.devices.Keys
      requires forall n :: n in names <==> n in config.coils
      requires StrictlyAscending(names)
      ensures r.Err? <==> exists c :: Config.Orphan(config, c)
      ensures r.Err? ==>
                && Config.Orphan(config, r.error.coil)
                && r.error.device == config.coils[r.error.coil].device
                && forall c :: Config.Orphan(config, c) ==> AtMost(r.error.coil, c)
      ensures r.Ok? ==>
                && r.value.Keys == config.coils.Keys
                && forall n :: n in r.value ==>
                     && fresh(r.value[n])
                     && r.value[n].name == n
                     && r.value[n].config == config.coils[n]
                     && r.value[n].status == Unknown
                     && r.value[n].config.device in devices
                     && r.value[n].device == devices[r.value[n].config.device]
    {
      var coils: map<string, CoilState> := map[];
      var i := 0;
      while i < |names|
        invariant 0 <= i <= |names|
        invariant forall j :: 0 <= j < i ==> !Config.Orphan(config, names[j]) && names[j] in coils
        invariant forall n :: n in coils ==>
                    && n in config.coils
                    && fresh(coils[n])
                    && coils[n].name == n
                    && coils[n].config == config.coils[n]
                    && coils[n].status == Unknown
                    && coils[n].config.device in devices
                    && coils[n].device == devices[coils[n].config.device]
      {
        var n := names[i];
        var cc := config.coils[n];
        if cc.device !in devices {
          assert Config.Orphan(config, n);
          FirstOrphanIsLeast(config, names, i);
          return Err(UnknownDevice(n, cc.device));
        }
        var c := new CoilState(n, cc, devices[cc.device]);
        coils := coils[n := c];
        i := i + 1;
      }
      forall c | c in config.coils ensures c in coils && !Config.Orphan(config, c) {
        var j :| 0 <= j < |names| && names[j] == c;
      }
      r := Ok(coils);
    }

    /**
     * The tag index over `coils`: each coil, in the order `names`, pushed
     * onto the list of each label it carries, a list created on first use.
     */
    static method BuildTags(config: Config.Config, coils: map<string, CoilState>, names: seq<string>)
      returns (tags: map<string, seq<CoilState>>)
      requires coils.Keys == config.coils.Keys
      requires forall n :: n in names ==> n in coils
      requires forall n :: n in coils ==> coils[n].name == n && coils[n].config == config.coils[n]
      ensures NamesByTag(tags) == Tags.IndexOf(names, config.coils)
      ensures RegisteredIn(tags, coils)
    {
      tags := map[];
      var i := 0;
      while i < |names|
        invariant 0 <= i <= |names|
        invariant NamesByTag(tags) == Tags.IndexOf(names[..i], config.coils)
        invariant RegisteredIn(tags, coils)
      {
        var c := coils[names[i]];
        assert names[..i + 1][..i] == names[..i];
        tags := AddTags(tags, c, coils);
        i := i + 1;
      }
      assert names[..i] == names;
    }

    /** Push coil `c` onto the list of each label it carries, in order. */
    static method AddTags(tags: map<string, seq<CoilState>>, c: CoilState, ghost coils: map<string, CoilState>)
      returns (out: map<string, seq<CoilState>>)
      requires RegisteredIn(tags, coils) && c.name in coils && coils[c.name] == c
      ensures NamesByTag(out) == Tags.AddCoil(NamesByTag(tags), c.name, c.config.tags)
      ensures RegisteredIn(out, coils)
    {
      out := tags;
      var j := 0;
      while j < |c.config.tags|
        invariant 0 <= j <= |c.config.tags|
        invariant NamesByTag(out) == Tags.AddCoil(NamesByTag(tags), c.name, c.config.tags[..j])
        invariant RegisteredIn(out, coils)
      {
        var t := c.config.tags[j];
        assert c.config.tags[..j + 1][..j] == c.config.tags[..j];
        var list := if t in out then out[t] else [];
        PushStep(out, t, c, coils);
        out := out[t := list + [c]];
        j := j + 1;
      }
      assert c.config.tags[..j] == c.config.tags;
    }

    /** The coil that stops construction is the least orphan. */
    static lemma FirstOrphanIsLeast(config: Config.Config, names: seq<string>, i: int)
      requires forall n :: n in names <==> n in config.coils
      requires StrictlyAscending(names)
      requires 0 <= i < |names| && Config.Orphan(config, names[i])
      requires forall j :: 0 <= j < i ==> !Config.Orphan(config, names[j])
      ensures forall c :: Config.Orphan(config, c) ==> AtMost(names[i], c)
    {
      forall c | Config.Orphan(config, c) ensures AtMost(names[i], c) {
        var p :| 0 <= p < |names| && names[p] == c;
        if p != i {
          assert p > i;
        }
      }
    }

    /** Device addresses of the devices `names`, in that order. */
    ghost function Addresses(names: seq<string>): (addrs: seq<u8>)
      requires forall n :: n in names ==> n in devices
      ensures |addrs| == |names|
      ensures forall i :: 0 <= i < |names| ==> addrs[i] == devices[names[i]].config.modbusAddress
    {
      seq(|names|, i requires 0 <= i < |names| => devices[names[i]].config.modbusAddress)
    }

    /** The versions of the devices `names`, in that order. */
    ghost function Versions(names: seq<string>): (vs: seq<Option<u16>>)
      requires forall n :: n in names ==> n in devices
      reads devices.Values
      ensures |vs| == |names| && forall i :: 0 <= i < |names| ==> vs[i] == devices[names[i]].version
    {
      seq(|names|, i requires 0 <= i < |names| reads devices.Values => devices[names[i]].version)
    }

    /** The seen flags of the devices `names`, in that order. */
    ghost function SeenFlags(names: seq<string>): (ss: seq<bool>)
      requires forall n :: n in names ==> n in devices
      reads devices.Values
      ensures |ss| == |names| && forall i :: 0 <= i < |names| ==> ss[i] == devices[names[i]].seen
    {
      seq(|names|, i requires 0 <= i < |names| reads devices.Values => devices[names[i]].seen)
    }

    /**
     * Forget the state of every device and coil (after a power loss on the
     * bus). The maps themselves, and so their key sets, are unchanged.
     */
    method Reset()
      requires Valid()
      modifies devices.Values, coils.Values
      ensures forall n :: n in devices ==> devices[n].version == None && !devices[n].seen
      ensures forall n :: n in coils ==> coils[n].status == Unknown
      ensures forall t, k :: t in tags && 0 <= k < |tags[t]| ==> tags[t][k].status == Unknown
    {
      var deviceNames := Keys(devices);
      ResetDevices(deviceNames);
      var coilNames := Keys(coils);
      ResetCoils(coilNames);
    }

    /** Reset the devices `names`, all of them, in that order. */
    method ResetDevices(names: seq<string>)
      requires forall n :: n in names <==> n in devices
      modifies devices.Values
      ensures forall n :: n in devices ==> devices[n].version == None && !devices[n].seen
    {
      var i := 0;
      while i < |names|
        invariant 0 <= i <= |names|
        invariant forall j :: 0 <= j < i ==> devices[names[j]].version == None && !devices[names[j]].seen
      {
        devices[names[i]].Reset();
        i := i + 1;
      }
      forall n | n in devices ensures devices[n].version == None && !devices[n].seen {
        var j :| 0 <= j < |names| && names[j] == n;
      }
    }

    /** Reset the coils `names`, all of them, in that order. */
    method ResetCoils(names: seq<string>)
      requires forall n :: n in names <==> n in coils
      modifies coils.Values
      ensures forall n :: n in coils ==> coils[n].status == Unknown
    {
      var i := 0;
      while i < |names|
        invariant 0 <= i <= |names|
        invariant forall j :: 0 <= j < i ==> coils[names[j]].status == Unknown
      {
        coils[names[i]].Reset();
        i := i + 1;
      }
      forall n | n in coils ensures coils[n].status == Unknown {
        var j :| 0 <= j < |names| && names[j] == n;
      }
    }

    /**
     * Probe every device's hardware version, one at a time in ascending name
     * order, the reply at each device's address given by `bus`. Stops at the
     * first device whose probe fails, returning that error; timeouts do not
     * stop it. Devices probed are updated as by DeviceState's probe, the rest
     * are untouched.
     */
    method CheckStateFromDevice(bus: u8 -> Timed<IoResult<seq<u16>>>) returns (r: Result<(), DorfbusError>, sent: seq<Frame>)
      requires DevicesNamed()
      modifies devices.Values
      ensures ProbeOutcome(AscendingKeys(devices.Keys), bus, r, sent)
      ensures var order := AscendingKeys(devices.Keys);
              var k := ProbedCount(Probes(Addresses(order), bus));
              forall i :: 0 <= i < |order| ==>
                devices[order[i]].ProbedAs(old(devices[order[i]].version), old(devices[order[i]].seen),
                                           Outcome(Probes(Addresses(order), bus), k, i))
    {
      var order := Keys(devices);
      AscendingKeysSorted(devices.Keys);
      r, sent := ProbeInOrder(bus, order);
    }

    /**
     * The result and the requests of a sequential probe of the devices
     * `order` that stops at the first failed probe: the frames of the devices
     * visited, and the error of the last of them when it failed.
     */
    ghost predicate ProbeOutcome(order: seq<string>, bus: u8 -> Timed<IoResult<seq<u16>>>,
                                 r: Result<(), DorfbusError>, sent: seq<Frame>)
      requires forall n :: n in order ==> n in devices
    {
      var addrs := Addresses(order);
      var ps := Probes(addrs, bus);
      var k := ProbedCount(ps);
      && sent == ProbeFrames(addrs[..k])
      && (r.Err? <==> k > 0 && ps[k - 1].ProbeFailed?)
      && (r.Err? ==> r.error == ps[k - 1].error)
    }

    /** The sequential probe over the devices `order` (each named once). */
    method ProbeInOrder(bus: u8 -> Timed<IoResult<seq<u16>>>, order: seq<string>) returns (r: Result<(), DorfbusError>, sent: seq<Frame>)
      requires DevicesNamed()
      requires StrictlyAscending(order) && forall n :: n in order ==> n in devices
      modifies devices.Values
      ensures ProbeOutcome(order, bus, r, sent)
      ensures var k := ProbedCount(Probes(Addresses(order), bus));
              forall i :: 0 <= i < |order| ==>
                devices[order[i]].ProbedAs(old(devices[order[i]].version), old(devices[order[i]].seen),
                                           Outcome(Probes(Addresses(order), bus), k, i))
    {
      ghost var addrs := Addresses(order);
      ghost var ps := Probes(addrs, bus);
      ghost var v0 := Versions(order);
      ghost var s0 := SeenFlags(order);
      sent := [];
      r := Ok(());
      var i := 0;
      while i < |order|
        invariant 0 <= i <= |order|
        invariant r == Ok(())
        invariant NoneFailed(ps[..i])
        invariant sent == ProbeFrames(addrs[..i])
        invariant forall j :: 0 <= j < |order| ==> devices[order[j]].ProbedAs(v0[j], s0[j], Outcome(ps, i, j))
      {
        var res, s := ProbeStep(order, addrs, ps, i, bus, v0, s0);
        ProbeFramesStep(addrs, i);
        sent := sent + s;
        if res.Err? {
          r := res;
          ProbedCountStops(ps, i);
          return;
        }
        NoneFailedStep(ps, i);
        i := i + 1;
      }
      assert ps[..i] == ps;
      ProbedCountAll(ps);
    }

    /**
     * One step of the sequential probe: probe the `i`-th device of `order`.
     * The devices before it have been probed, it and the ones after have not.
     */
    method ProbeStep(order: seq<string>, ghost addrs: seq<u8>, ghost ps: seq<Probed>, i: int,
                     bus: u8 -> Timed<IoResult<seq<u16>>>, ghost v0: seq<Option<u16>>, ghost s0: seq<bool>)
      returns (res: Result<(), DorfbusError>, s: seq<Frame>)
      requires DevicesNamed()
      requires StrictlyAscending(order) && forall n :: n in order ==> n in devices
      requires addrs == Addresses(order) && ps == Probes(addrs, bus)
      requires 0 <= i < |order| && |v0| == |order| && |s0| == |order|
      requires forall j :: 0 <= j < |order| ==> devices[order[j]].ProbedAs(v0[j], s0[j], Outcome(ps, i, j))
      modifies devices[order[i]]
      ensures forall j :: 0 <= j < |order| ==> devices[order[j]].ProbedAs(v0[j], s0[j], Outcome(ps, i + 1, j))
      ensures s == [Frame(addrs[i], HardwareVersionRead)]
      ensures res.Err? <==> ps[i].ProbeFailed?
      ensures res.Err? ==> res.error == ps[i].error
    {
      var d := devices[order[i]];
      DistinctAt(order, i);
      res, s := d.CheckStateFromDevice(bus(d.config.modbusAddress));
    }
  }

  /** The probe outcome of the `j`-th device once the first `k` of the probes `ps` have been made. */
  function Outcome(ps: seq<Probed>, k: int, j: int): Probed
    requires 0 <= j < |ps|
  {
    if j < k then ps[j] else NoAnswer
  }
}
