/**
 * How a tool picks the device it works on. Three rules occur in the tools:
 * the common first-or-by-serial rule, the emulator-only rule of the stop tool,
 * and the install and shell tools' rule, which is the common rule applied to
 * a serial read only when it is a JSON string.
 */
module Targeting {
  import opened Base
  import opened Args
  import opened Bridge

  /** The outcome of picking a device: nothing enumerated, nothing matched, or a target. */
  datatype Resolution = NoDevices | NoMatch | Target(device: Device)

  /** The answers of the tools that use the common rule, when it finds no device. */
  const NoDevicesText := "No Android devices found. Please connect a device or start an emulator."

  function UnknownSerialText(serial: string): string {
    "Device with serial '" + serial + "' not found."
  }

  /** The index of the first entry satisfying p (what FirstOrDefault finds), if any. */
  function FirstIndex<T>(xs: seq<T>, p: T -> bool): (r: Option<nat>)
    ensures r.None? <==> forall i :: 0 <= i < |xs| ==> !p(xs[i])
    ensures r.Some? ==> r.value < |xs| && p(xs[r.value])
    ensures r.Some? ==> forall j :: 0 <= j < r.value ==> !p(xs[j])
  {
    if xs == [] then None
    else if p(xs[0]) then Some(0)
    else match FirstIndex(xs[1..], p)
      case None => None
      case Some(k) => Some(k + 1)
  }

  /** Devices.FirstOrDefault(p) */
  function FirstWhere(devices: seq<Device>, p: Device -> bool): (r: Option<Device>)
    ensures r.None? <==> forall i :: 0 <= i < |devices| ==> !p(devices[i])
    ensures r.Some? ==> exists i :: 0 <= i < |devices| && devices[i] == r.value && p(r.value)
                          && forall j :: 0 <= j < i ==> !p(devices[j])
  {
    match FirstIndex(devices, p)
    case None => None
    case Some(i) => Some(devices[i])
  }

  /** The device is the first in the list to carry this serial. */
  ghost predicate FirstWithSerial(devices: seq<Device>, d: Device, serial: string) {
    exists i :: 0 <= i < |devices| && devices[i] == d && d.serial == serial
      && forall j :: 0 <= j < i ==> devices[j].serial != serial
  }

  /**
   * The common rule: no devices is an error of its own; a null or empty serial
   * takes the first device; otherwise the first device whose serial equals it
   * exactly, or no match.
   */
  function ResolveDevice(devices: seq<Device>, serial: Option<string>): (r: Resolution)
    ensures r == NoDevices <==> devices == []
    ensures devices != [] && IsNullOrEmpty(serial) ==> r == Target(devices[0])
    ensures r == NoMatch <==>
      devices != [] && !IsNullOrEmpty(serial) && forall i :: 0 <= i < |devices| ==> devices[i].serial != serial.value
    ensures r.Target? && !IsNullOrEmpty(serial) ==> FirstWithSerial(devices, r.device, serial.value)
    ensures r.Target? ==> r.device in devices
  {
    if devices == [] then NoDevices
    else if IsNullOrEmpty(serial) then Target(devices[0])
    else match FirstWhere(devices, (d: Device) => d.serial == serial.value)
      case None => NoMatch
      case Some(d) => Target(d)
  }

  /** The stop tool's test: an emulator, and with the given serial if one was given. */
  predicate Stoppable(d: Device, serial: Option<string>) {
    if IsNullOrEmpty(serial) then d.isEmulator else d.serial == serial.value && d.isEmulator
  }

  /**
   * The emulator-only rule: the first device that is an emulator (and carries
   * the serial, if one is given); a physical device is never picked.
   */
  function ResolveEmulator(devices: seq<Device>, serial: Option<string>): (r: Resolution)
    ensures r == NoDevices <==> devices == []
    ensures r == NoMatch <==> devices != [] && forall i :: 0 <= i < |devices| ==> !Stoppable(devices[i], serial)
    ensures r.Target? ==> r.device.isEmulator
    ensures r.Target? && !IsNullOrEmpty(serial) ==> r.device.serial == serial.value
    ensures r.Target? ==> exists i :: 0 <= i < |devices| && devices[i] == r.device
                            && forall j :: 0 <= j < i ==> !Stoppable(devices[j], serial)
  {
    if devices == [] then NoDevices
    else match FirstWhere(devices, (d: Device) => Stoppable(d, serial))
      case None => NoMatch
      case Some(d) => Target(d)
  }

  /** No two devices share a serial. */
  predicate DistinctSerials(devices: seq<Device>) {
    forall i, j :: 0 <= i < j < |devices| ==> devices[i].serial != devices[j].serial
  }

  /** With serials unique, a given serial picks exactly the device that carries it. */
  lemma SerialFindsItsDevice(devices: seq<Device>, serial: string, i: nat)
    requires DistinctSerials(devices)
    requires serial != "" && i < |devices| && devices[i].serial == serial
    ensures ResolveDevice(devices, Some(serial)) == Target(devices[i])
  {
    var r := ResolveDevice(devices, Some(serial));
    assert r.Target?;
    var k :| 0 <= k < |devices| && devices[k] == r.device && r.device.serial == serial
      && forall j :: 0 <= j < k ==> devices[j].serial != serial;
    assert k == i;
  }

  /**
   * With a serial given and serials unique, the emulator-only rule picks
   * exactly the device the common rule picks when that device is an emulator,
   * and rejects the serial when it names a physical device.
   */
  lemma EmulatorRuleRefinesDeviceRule(devices: seq<Device>, serial: string)
    requires DistinctSerials(devices)
    requires serial != ""
    ensures ResolveDevice(devices, Some(serial)).Target? && ResolveDevice(devices, Some(serial)).device.isEmulator
            ==> ResolveEmulator(devices, Some(serial)) == ResolveDevice(devices, Some(serial))
    ensures ResolveDevice(devices, Some(serial)).Target? && !ResolveDevice(devices, Some(serial)).device.isEmulator
            ==> ResolveEmulator(devices, Some(serial)) == NoMatch
    ensures ResolveDevice(devices, Some(serial)) == NoMatch ==> ResolveEmulator(devices, Some(serial)) == NoMatch
  {
    var r := ResolveDevice(devices, Some(serial));
    if r.Target? {
      var i :| 0 <= i < |devices| && devices[i] == r.device && r.device.serial == serial
        && forall j :: 0 <= j < i ==> devices[j].serial != serial;
      // Every device other than the i-th carries another serial, so it is not stoppable.
      forall k | 0 <= k < |devices| && k != i
        ensures !Stoppable(devices[k], Some(serial))
      {
        if k < i {
          assert devices[k].serial != devices[i].serial;
        } else {
          assert devices[i].serial != devices[k].serial;
        }
      }
      var e := ResolveEmulator(devices, Some(serial));
      if r.device.isEmulator {
        assert Stoppable(devices[i], Some(serial));
        assert e.Target?;
        var m :| 0 <= m < |devices| && devices[m] == e.device
          && forall j :: 0 <= j < m ==> !Stoppable(devices[j], Some(serial));
        assert Stoppable(devices[m], Some(serial));
        assert m == i;
      } else {
        assert !Stoppable(devices[i], Some(serial));
      }
    }
  }

  /**
   * The install and shell tools' serial: honoured only when the argument is
   * a JSON string; any other kind is ignored rather than rejected.
   */
  function StringSerial(args: map<string, Arg>): (serial: Option<string>)
    ensures serial.Some? <==> "deviceSerial" in args && args["deviceSerial"].Str?
    ensures serial.Some? ==> serial.value == args["deviceSerial"].s
  {
    if "deviceSerial" in args && args["deviceSerial"].Str? then Some(args["deviceSerial"].s) else None
  }

  /** The install and shell tools start the adb server at a fixed path before enumerating devices. */
  const ConnectCommands := [StartAdbServer("/usr/bin/adb"), EnumerateDevices]

  /** The install and shell tools' answers when the rule finds no device or no match. */
  const NotConnectedText := "Error: No Android devices connected"

  function NoSuchSerialText(serial: string): string {
    "Error: Device with serial '" + serial + "' not found"
  }
}
