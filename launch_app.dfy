/**
 * android-launch-app: start an installed package on a device, through its
 * launcher intent (monkey) or through a named activity (am start).
 */
module LaunchAppTool {
  import opened Base
  import opened Text
  import opened Args
  import opened Bridge
  import opened Targeting

  const PackageRequiredText := "Error: 'packageName' parameter is required"

  function NotInstalledText(package: string, serial: string): string {
    "Package '" + package + "' is not installed on device " + serial
  }

  function CatchAll(f: Fault): string {
    "Error launching app: " + FaultMessage(f)
  }

  datatype Params = Params(package: string, activity: Option<string>, serial: Option<string>)

  /** Reads packageName (present), then activityName and deviceSerial. */
  function Parse(args: map<string, Arg>): (r: Result<Params>)
    requires "packageName" in args
    ensures r.Ok? ==> args["packageName"] == Str(r.value.package)
    ensures r.Ok? ==> ("activityName" in args <==> r.value.activity.Some?)
    ensures r.Ok? && "activityName" in args ==> args["activityName"] == Str(r.value.activity.value)
    ensures r.Ok? ==> ("deviceSerial" in args <==> r.value.serial.Some?)
    ensures r.Ok? && "deviceSerial" in args ==> args["deviceSerial"] == Str(r.value.serial.value)
  {
    var package :- RequiredString(args, "packageName");
    var activity :- OptionalString(args, "activityName");
    var serial :- OptionalString(args, "deviceSerial");
    Ok(Params(package, activity, serial))
  }

  /** The launcher intent through monkey without an activity, "am start -n P/A" with one. */
  function LaunchCommand(package: string, activity: Option<string>): (cmd: string)
    ensures IsNullOrEmpty(activity) ==> cmd == "monkey -p " + package + " -c android.intent.category.LAUNCHER 1"
    ensures !IsNullOrEmpty(activity) ==> cmd == "am start -n " + package + "/" + activity.value
  {
    if IsNullOrEmpty(activity) then "monkey -p " + package + " -c android.intent.category.LAUNCHER 1"
    else "am start -n " + package + "/" + activity.value
  }

  /** What a launch is reported as: the package, or package/activity. */
  function LaunchTarget(package: string, activity: Option<string>): (t: string)
    ensures IsNullOrEmpty(activity) ==> t == package
    ensures !IsNullOrEmpty(activity) ==> t == package + "/" + activity.value
  {
    if IsNullOrEmpty(activity) then package else package + "/" + activity.value
  }

  /** The reply shows a launch: monkey's "Events injected", am's "Starting:", or no reply at all. */
  predicate Launched(reply: string) {
    Contains(reply, "Events injected") || Contains(reply, "Starting:") || reply == ""
  }

  function ReplyText(p: Params, serial: string, reply: string): (t: string)
    ensures Launched(reply) ==> t == "Successfully launched '" + LaunchTarget(p.package, p.activity) + "' on device " + serial
    ensures !Launched(reply) ==> t == "Failed to launch '" + p.package + "' on device " + serial + ": " + reply
  {
    if Launched(reply) then "Successfully launched '" + LaunchTarget(p.package, p.activity) + "' on device " + serial
    else "Failed to launch '" + p.package + "' on device " + serial + ": " + reply
  }

  function Run(p: Params, env: Env): (o: Outcome)
    ensures ResolveDevice(env.devices, p.serial) == NoDevices ==> o == Outcome([EnumerateDevices], NoDevicesText)
    ensures ResolveDevice(env.devices, p.serial) == NoMatch ==>
      o == Outcome([EnumerateDevices], UnknownSerialText(p.serial.value))
    ensures ResolveDevice(env.devices, p.serial).Target? ==>
      var s := ResolveDevice(env.devices, p.serial).device.serial;
      var checked := [EnumerateDevices, QueryPackages(s, false)];
      var cmd := LaunchCommand(p.package, p.activity);
      (PackagePresence(env, s, p.package) == QueryFailed ==> o == Outcome(checked, CatchAll(NullSource)))
      && (PackagePresence(env, s, p.package) == Absent ==> o == Outcome(checked, NotInstalledText(p.package, s)))
      && (PackagePresence(env, s, p.package) == Present ==>
            o == Outcome(checked + [Shell(s, cmd)], ReplyText(p, s, Join(ShellOutput(env, s, cmd), "\n"))))
  {
    match ResolveDevice(env.devices, p.serial)
    case NoDevices => Outcome([EnumerateDevices], NoDevicesText)
    case NoMatch => Outcome([EnumerateDevices], UnknownSerialText(p.serial.value))
    case Target(d) =>
      var checked := [EnumerateDevices, QueryPackages(d.serial, false)];
      match PackagePresence(env, d.serial, p.package)
      case QueryFailed => Outcome(checked, CatchAll(NullSource))
      case Absent => Outcome(checked, NotInstalledText(p.package, d.serial))
      case Present =>
        var cmd := LaunchCommand(p.package, p.activity);
        Outcome(checked + [Shell(d.serial, cmd)], ReplyText(p, d.serial, Join(ShellOutput(env, d.serial, cmd), "\n")))
  }

  /** The whole tool: a missing packageName is reported before anything else is read. */
  function Invoke(req: Request, env: Env): (o: Outcome)
    ensures "packageName" !in Bag(req) ==> o == Outcome([], PackageRequiredText)
    ensures "packageName" in Bag(req) && Parse(Bag(req)).Err? ==> o == Outcome([], CatchAll(Parse(Bag(req)).fault))
    ensures "packageName" in Bag(req) && Parse(Bag(req)).Ok? ==> o == Run(Parse(Bag(req)).value, env)
  {
    var args := Bag(req);
    if "packageName" !in args then Outcome([], PackageRequiredText)
    else match Parse(args)
      case Err(f) => Outcome([], CatchAll(f))
      case Ok(p) => Run(p, env)
  }

  /** A null context gets the required-parameter error, as a context without the key does. */
  lemma NoContextNeedsPackage(env: Env)
    ensures Invoke(NullContext, env) == Outcome([], PackageRequiredText)
  {
  }

  /** A device that prints nothing in reply counts as launched, and so does any reply naming a marker. */
  lemma SilentOrMarkedReplyLaunches(p: Params, serial: string, before: string, after: string)
    ensures ReplyText(p, serial, "") == "Successfully launched '" + LaunchTarget(p.package, p.activity) + "' on device " + serial
    ensures ReplyText(p, serial, before + "Events injected" + after) == ReplyText(p, serial, "")
    ensures ReplyText(p, serial, before + "Starting:" + after) == ReplyText(p, serial, "")
  {
    ContainsPiece(before, "Events injected", after);
    ContainsPiece(before, "Starting:", after);
  }
}
