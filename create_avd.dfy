/**
 * android-create-avd: create an Android Virtual Device with avdmanager,
 * refusing a name already taken (ignoring case) unless forced.
 */
module CreateAvdTool {
  import opened Base
  import opened Text
  import opened Args
  import opened Bridge

  const NameRequiredText := "Error: 'name' parameter is required"
  const PackageRequiredText := "Error: 'package' parameter is required"
  const DefaultDevice := "pixel"

  function ExistsText(name: string): string {
    "Error: AVD '" + name + "' already exists. Use force=true to overwrite."
  }

  function CatchAll(f: Fault): string {
    "Error creating AVD: " + FaultMessage(f)
  }

  datatype Params = Params(name: string, package: string, device: string, force: bool)

  /** Reads name and package (both present), then device (default "pixel") and force. */
  function Parse(args: map<string, Arg>): (r: Result<Params>)
    requires "name" in args && "package" in args
    ensures r.Ok? ==> args["name"] == Str(r.value.name) && args["package"] == Str(r.value.package)
    ensures r.Ok? ==> ("device" in args ==> args["device"] == Str(r.value.device))
    ensures r.Ok? ==> ("device" !in args ==> r.value.device == DefaultDevice)
    ensures r.Ok? ==> (r.value.force <==> "force" in args && args["force"] == Bool(true))
  {
    var name :- RequiredString(args, "name");
    var package :- RequiredString(args, "package");
    var device :- StringOr(args, "device", DefaultDevice);
    var force :- Flag(args, "force");
    Ok(Params(name, package, device, force))
  }

  /** create avd -n NAME -k PACKAGE -d DEVICE, with " --force" appended exactly when forced. */
  function CreateArguments(p: Params): (a: string)
    ensures !p.force ==> a == "create avd -n " + p.name + " -k " + p.package + " -d " + p.device
    ensures p.force ==> a == "create avd -n " + p.name + " -k " + p.package + " -d " + p.device + " --force"
  {
    var plain := "create avd -n " + p.name + " -k " + p.package + " -d " + p.device;
    if p.force then plain + " --force" else plain
  }

  function CreateText(run: ProcessRun, p: Params): (t: string)
    ensures run.Exited? && run.exitCode == 0 ==>
      t == "Successfully created AVD '" + p.name + "' with package '" + p.package + "' and device '" + p.device + "'"
    ensures run.Exited? && run.exitCode != 0 ==> t == "Failed to create AVD '" + p.name + "': " + run.stderr
    ensures run.FailedToStart? ==>
      t == "Failed to create AVD '" + p.name + "'. Please ensure Android SDK tools are installed and in PATH. Error: " + run.message
  {
    match run
    case Exited(code, _, stderr) =>
      if code == 0 then "Successfully created AVD '" + p.name + "' with package '" + p.package + "' and device '" + p.device + "'"
      else "Failed to create AVD '" + p.name + "': " + stderr
    case FailedToStart(m) =>
      "Failed to create AVD '" + p.name + "'. Please ensure Android SDK tools are installed and in PATH. Error: " + m
  }

  function Run(p: Params, env: Env): (o: Outcome)
    ensures KnownAvd(env.avds, p.name) && !p.force ==> o == Outcome([EnumerateAvds], ExistsText(p.name))
    ensures !KnownAvd(env.avds, p.name) || p.force ==>
      o == Outcome([EnumerateAvds, RunProcess("avdmanager", CreateArguments(p), [])], CreateText(env.process, p))
  {
    if KnownAvd(env.avds, p.name) && !p.force then Outcome([EnumerateAvds], ExistsText(p.name))
    else Outcome([EnumerateAvds, RunProcess("avdmanager", CreateArguments(p), [])], CreateText(env.process, p))
  }

  /** The whole tool: name is required first, then package, before anything else is read. */
  function Invoke(req: Request, env: Env): (o: Outcome)
    ensures "name" !in Bag(req) ==> o == Outcome([], NameRequiredText)
    ensures "name" in Bag(req) && "package" !in Bag(req) ==> o == Outcome([], PackageRequiredText)
    ensures "name" in Bag(req) && "package" in Bag(req) ==>
      (Parse(Bag(req)).Err? ==> o == Outcome([], CatchAll(Parse(Bag(req)).fault)))
      && (Parse(Bag(req)).Ok? ==> o == Run(Parse(Bag(req)).value, env))
  {
    var args := Bag(req);
    if "name" !in args then Outcome([], NameRequiredText)
    else if "package" !in args then Outcome([], PackageRequiredText)
    else match Parse(args)
      case Err(f) => Outcome([], CatchAll(f))
      case Ok(p) => Run(p, env)
  }

  /**
   * The duplicate check ignores letter case: two unforced requests whose
   * names differ only in case are both refused or both run avdmanager, and
   * an AVD carrying either spelling blocks the other.
   */
  lemma DuplicateDifferingInCase(env: Env, p: Params, q: Params)
    requires q == p.(name := q.name) && EqualsIgnoreCase(p.name, q.name) && !p.force
    ensures Run(p, env).commands == [EnumerateAvds] <==> Run(q, env).commands == [EnumerateAvds]
    ensures (exists i :: 0 <= i < |env.avds| && env.avds[i].name == p.name) ==>
      Run(q, env) == Outcome([EnumerateAvds], ExistsText(q.name))
  {
    KnownAvdIgnoresCase(env.avds, p.name, q.name);
    if exists i :: 0 <= i < |env.avds| && env.avds[i].name == p.name {
      var i :| 0 <= i < |env.avds| && env.avds[i].name == p.name;
      assert EqualsIgnoreCase(env.avds[i].name, p.name);
    }
  }

  /** Forcing always runs avdmanager, whatever AVDs exist. */
  lemma ForceAlwaysRuns(p: Params, env: Env)
    requires p.force
    ensures Run(p, env).commands == [EnumerateAvds, RunProcess("avdmanager", CreateArguments(p), [])]
  {
  }
}
