/**
 * android-stop-avd: power off a running emulator by sending it "reboot -p".
 * Only emulators are ever chosen.
 */
module StopAvdTool {
  import opened Base
  import opened Args
  import opened Bridge
  import opened Targeting

  const NoDevicesText := "No Android devices found."
  const NoEmulatorText := "No running emulators found."
  const StopCommand := "reboot -p"

  function UnknownEmulatorText(serial: string): string {
    "Emulator with serial '" + serial + "' not found or is not an emulator."
  }

  function StoppedText(serial: string): string {
    "Successfully stopped AVD " + serial
  }

  function CatchAll(f: Fault): string {
    "Error stopping AVD: " + FaultMessage(f)
  }

  /** The serial, and the force flag, which is read but changes nothing. */
  datatype Params = Params(serial: Option<string>, force: bool)

  function Parse(args: map<string, Arg>): (r: Result<Params>)
    ensures r.Ok? ==> ("deviceSerial" in args <==> r.value.serial.Some?)
    ensures r.Ok? && "deviceSerial" in args ==> args["deviceSerial"] == Str(r.value.serial.value)
    ensures r.Ok? ==> (r.value.force <==> "force" in args && args["force"] == Bool(true))
  {
    var serial :- OptionalString(args, "deviceSerial");
    var force :- Flag(args, "force");
    Ok(Params(serial, force))
  }

  function Run(p: Params, env: Env): (o: Outcome)
    ensures env.devices == [] ==> o == Outcome([EnumerateDevices], NoDevicesText)
    ensures ResolveEmulator(env.devices, p.serial) == NoMatch ==>
      o == Outcome([EnumerateDevices], if IsNullOrEmpty(p.serial) then NoEmulatorText else UnknownEmulatorText(p.serial.value))
    // Whatever the device answers, the stop is reported as done.
    ensures ResolveEmulator(env.devices, p.serial).Target? ==>
      var d := ResolveEmulator(env.devices, p.serial).device;
      o == Outcome([EnumerateDevices, Shell(d.serial, StopCommand)], StoppedText(d.serial))
  {
    match ResolveEmulator(env.devices, p.serial)
    case NoDevices => Outcome([EnumerateDevices], NoDevicesText)
    case NoMatch =>
      Outcome([EnumerateDevices], if IsNullOrEmpty(p.serial) then NoEmulatorText else UnknownEmulatorText(p.serial.value))
    case Target(d) => Outcome([EnumerateDevices, Shell(d.serial, StopCommand)], StoppedText(d.serial))
  }

  function Invoke(req: Request, env: Env): (o: Outcome)
    ensures Parse(Bag(req)).Err? ==> o == Outcome([], CatchAll(Parse(Bag(req)).fault))
    ensures Parse(Bag(req)).Ok? ==> o == Run(Parse(Bag(req)).value, env)
  {
    match Parse(Bag(req))
    case Err(f) => Outcome([], CatchAll(f))
    case Ok(p) => Run(p, env)
  }

  /** Only an emulator is ever sent the stop command. */
  lemma OnlyEmulatorsStopped(req: Request, env: Env, serial: string)
    requires Shell(serial, StopCommand) in Invoke(req, env).commands
    ensures exists d :: d in env.devices && d.serial == serial && d.isEmulator
  {
    var p := Parse(Bag(req)).value;
    var d := ResolveEmulator(env.devices, p.serial).device;
    assert d in env.devices;
  }

  /** The force flag has no effect on the outcome. */
  lemma ForceIgnored(p: Params, env: Env)
    ensures Run(p.(force := true), env) == Run(p.(force := false), env)
  {
  }

  /** The outcome does not depend on what the device prints in reply. */
  lemma ReplyIgnored(p: Params, env: Env, shell: map<(string, string), seq<string>>)
    ensures Run(p, env.(shell := shell)) == Run(p, env)
  {
  }
}
