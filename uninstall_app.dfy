/**
 * android-uninstall-app: remove an installed package from a device with
 * "pm uninstall", keeping its data when asked to.
 */
module UninstallAppTool {
  import opened Base
  import opened Text
  import opened Args
  import opened Bridge
  import opened Targeting

  const PackageRequiredText := "Error: 'packageName' parameter is required"

  function NotInstalledText(package: string, serial: string): string {
    "Package '" + package + "' is not installed on device " + serial
  }

  function CatchAll(f: Fault): string {
    "Error uninstalling app: " + FaultMessage(f)
  }

  datatype Params = Params(package: string, serial: Option<string>, keepData: bool)

  /** Reads packageName (present), then deviceSerial and keepData. */
  function Parse(args: map<string, Arg>): (r: Result<Params>)
    requires "packageName" in args
    ensures r.Ok? ==> args["packageName"] == Str(r.value.package)
    ensures r.Ok? ==> ("deviceSerial" in args <==> r.value.serial.Some?)
    ensures r.Ok? && "deviceSerial" in args ==> args["deviceSerial"] == Str(r.value.serial.value)
    ensures r.Ok? ==> (r.value.keepData <==> "keepData" in args && args["keepData"] == Bool(true))
  {
    var package :- RequiredString(args, "packageName");
    var serial :- OptionalString(args, "deviceSerial");
    var keepData :- Flag(args, "keepData");
    Ok(Params(package, serial, keepData))
  }

  /** "pm uninstall -k P" when the data is kept, else "pm uninstall P". */
  function UninstallCommand(package: string, keepData: bool): (cmd: string)
    ensures keepData ==> cmd == "pm uninstall -k " + package
    ensures !keepData ==> cmd == "pm uninstall " + package
  {
    if keepData then "pm uninstall -k " + package else "pm uninstall " + package
  }

  /** The report on the package manager's reply: success exactly when it mentions "Success". */
  function ReplyText(package: string, serial: string, keepData: bool, reply: string): (t: string)
    ensures Contains(reply, "Success") ==>
      t == "Successfully uninstalled '" + package + "' from device " + serial
           + (if keepData then " (data preserved)" else " (data removed)")
    ensures !Contains(reply, "Success") ==>
      t == "Failed to uninstall '" + package + "' from device " + serial + ": " + reply
  {
    if Contains(reply, "Success") then
      "Successfully uninstalled '" + package + "' from device " + serial
        + (if keepData then " (data preserved)" else " (data removed)")
    else "Failed to uninstall '" + package + "' from device " + serial + ": " + reply
  }

  function Run(p: Params, env: Env): (o: Outcome)
    ensures ResolveDevice(env.devices, p.serial) == NoDevices ==> o == Outcome([EnumerateDevices], NoDevicesText)
    ensures ResolveDevice(env.devices, p.serial) == NoMatch ==>
      o == Outcome([EnumerateDevices], UnknownSerialText(p.serial.value))
    ensures ResolveDevice(env.devices, p.serial).Target? ==>
      var s := ResolveDevice(env.devices, p.serial).device.serial;
      var checked := [EnumerateDevices, QueryPackages(s, false)];
      var cmd := UninstallCommand(p.package, p.keepData);
      (PackagePresence(env, s, p.package) == QueryFailed ==> o == Outcome(checked, CatchAll(NullSource)))
      && (PackagePresence(env, s, p.package) == Absent ==> o == Outcome(checked, NotInstalledText(p.package, s)))
      && (PackagePresence(env, s, p.package) == Present ==>
            o == Outcome(checked + [Shell(s, cmd)], ReplyText(p.package, s, p.keepData, Join(ShellOutput(env, s, cmd), "\n"))))
  {
    match ResolveDevice(env.devices, p.serial)
    case NoDevices => Outcome([EnumerateDevices], NoDevicesText)
    case NoMatch => Outcome([EnumerateDevices], UnknownSerialText(p.serial.value))
    case Target(d) =>
      var checked := [EnumerateDevices, QueryPackages(d.serial, false)];
      match PackagePresence(env, d.serial, p.package)
      case QueryFailed => Outcome(checked, CatchAll(NullSource))
      case Absent => Outcome(checked, NotInstalledText(p.package, d.serial))
      case Present =>
        var cmd := UninstallCommand(p.package, p.keepData);
        Outcome(checked + [Shell(d.serial, cmd)], ReplyText(p.package, d.serial, p.keepData, Join(ShellOutput(env, d.serial, cmd), "\n")))
  }

  /** The whole tool: a missing packageName is reported before anything else is read. */
  function Invoke(req: Request, env: Env): (o: Outcome)
    ensures "packageName" !in Bag(req) ==> o == Outcome([], PackageRequiredText)
    ensures "packageName" in Bag(req) && Parse(Bag(req)).Err? ==> o == Outcome([], CatchAll(Parse(Bag(req)).fault))
    ensures "packageName" in Bag(req) && Parse(Bag(req)).Ok? ==> o == Run(Parse(Bag(req)).value, env)
  {
    var args := Bag(req);
    if "packageName" !in args then Outcome([], PackageRequiredText)
    else match Parse(args)
      case Err(f) => Outcome([], CatchAll(f))
      case Ok(p) => Run(p, env)
  }

  /** Nothing is uninstalled unless the package query listed the package on the chosen device. */
  lemma UninstallOnlyInstalled(p: Params, env: Env, serial: string, cmd: string)
    requires Shell(serial, cmd) in Run(p, env).commands
    ensures ResolveDevice(env.devices, p.serial) == Target(ResolveDevice(env.devices, p.serial).device)
    ensures serial == ResolveDevice(env.devices, p.serial).device.serial
    ensures serial in env.packages && p.package in env.packages[serial]
    ensures cmd == UninstallCommand(p.package, p.keepData)
  {
  }

  /** An empty reply counts as a failure, with nothing after the colon. */
  lemma EmptyReplyFails(package: string, serial: string, keepData: bool)
    ensures ReplyText(package, serial, keepData, "") == "Failed to uninstall '" + package + "' from device " + serial + ": "
  {
    assert !Contains("", "Success");
  }
}
