/**
 * android-push-file: copy a local file to a device. The local file must
 * exist before any device is contacted.
 */
module PushFileTool {
  import opened Base
  import opened Text
  import opened Args
  import opened Bridge
  import opened Targeting

  const LocalRequiredText := "Error: 'localPath' parameter is required"
  const RemoteRequiredText := "Error: 'remotePath' parameter is required"

  /** A shell command issued before the push whose reply is never read. */
  const EchoCommand := "echo 'Attempting file push...'"

  function LocalMissingText(local: string): string {
    "Error: Local file '" + local + "' not found"
  }

  function FailedText(serial: string, reason: string): string {
    "Failed to push file to device " + serial + ": " + reason
  }

  function CatchAll(f: Fault): string {
    "Error pushing file: " + FaultMessage(f)
  }

  datatype Params = Params(local: string, remote: string, serial: Option<string>)

  /** Reads localPath and remotePath (both present), then deviceSerial. */
  function Parse(args: map<string, Arg>): (r: Result<Params>)
    requires "localPath" in args && "remotePath" in args
    ensures r.Ok? ==> args["localPath"] == Str(r.value.local) && args["remotePath"] == Str(r.value.remote)
    ensures r.Ok? ==> ("deviceSerial" in args <==> r.value.serial.Some?)
    ensures r.Ok? && "deviceSerial" in args ==> args["deviceSerial"] == Str(r.value.serial.value)
  {
    var local :- RequiredString(args, "localPath");
    var remote :- RequiredString(args, "remotePath");
    var serial :- OptionalString(args, "deviceSerial");
    Ok(Params(local, remote, serial))
  }

  /**
   * adb -s S push "LOCAL" "REMOTE": the arguments address the device first,
   * then name the quoted local path before the quoted remote one, and hold
   * nothing else.
   */
  function PushCommand(serial: string, local: string, remote: string): (c: Command)
    ensures c.RunProcess? && c.fileName == "adb" && c.stdin == []
    ensures StartsWith(c.arguments, "-s " + serial + " push ")
    ensures EndsWith(c.arguments, "\"" + local + "\" \"" + remote + "\"")
    ensures |c.arguments| == |"-s " + serial + " push "| + |"\"" + local + "\" \"" + remote + "\""|
  {
    var head := "-s " + serial + " push ";
    var paths := "\"" + local + "\" \"" + remote + "\"";
    assert (head + paths)[..|head|] == head;
    assert (head + paths)[|head|..] == paths;
    RunProcess("adb", head + paths, [])
  }

  /**
   * Success is a zero exit code alone; the reported size is read from the
   * local file afterwards, and a file gone by then is reported as a failure.
   */
  function PushText(run: ProcessRun, p: Params, serial: string, after: map<string, LocalFile>): (t: string)
    ensures run.Exited? && run.exitCode == 0 && p.local in after ==>
      t == "Successfully pushed '" + p.local + "' (" + NatToString(after[p.local].length) + " bytes) to '"
           + p.remote + "' on device " + serial
    ensures run.Exited? && run.exitCode == 0 && p.local !in after ==>
      t == FailedText(serial, FaultMessage(FileMissing(p.local)))
    ensures run.Exited? && run.exitCode != 0 ==> t == FailedText(serial, run.stderr)
    ensures run.FailedToStart? ==> t == FailedText(serial, run.message)
  {
    match run
    case Exited(code, _, stderr) =>
      if code != 0 then FailedText(serial, stderr)
      else if p.local in after then
        "Successfully pushed '" + p.local + "' (" + NatToString(after[p.local].length) + " bytes) to '"
          + p.remote + "' on device " + serial
      else FailedText(serial, FaultMessage(FileMissing(p.local)))
    case FailedToStart(m) => FailedText(serial, m)
  }

  function Run(p: Params, env: Env): (o: Outcome)
    // The local file is checked before any device is enumerated.
    ensures p.local !in env.filesBefore ==> o == Outcome([], LocalMissingText(p.local))
    ensures p.local in env.filesBefore && ResolveDevice(env.devices, p.serial) == NoDevices ==>
      o == Outcome([EnumerateDevices], NoDevicesText)
    ensures p.local in env.filesBefore && ResolveDevice(env.devices, p.serial) == NoMatch ==>
      o == Outcome([EnumerateDevices], UnknownSerialText(p.serial.value))
    ensures p.local in env.filesBefore && ResolveDevice(env.devices, p.serial).Target? ==>
      var s := ResolveDevice(env.devices, p.serial).device.serial;
      o == Outcome([EnumerateDevices, Shell(s, EchoCommand), PushCommand(s, p.local, p.remote)],
                   PushText(env.process, p, s, env.filesAfter))
  {
    if p.local !in env.filesBefore then Outcome([], LocalMissingText(p.local))
    else match ResolveDevice(env.devices, p.serial)
      case NoDevices => Outcome([EnumerateDevices], NoDevicesText)
      case NoMatch => Outcome([EnumerateDevices], UnknownSerialText(p.serial.value))
      case Target(d) =>
        Outcome([EnumerateDevices, Shell(d.serial, EchoCommand), PushCommand(d.serial, p.local, p.remote)],
                PushText(env.process, p, d.serial, env.filesAfter))
  }

  /** The whole tool: localPath is required first, then remotePath, before anything else is read. */
  function Invoke(req: Request, env: Env): (o: Outcome)
    ensures "localPath" !in Bag(req) ==> o == Outcome([], LocalRequiredText)
    ensures "localPath" in Bag(req) && "remotePath" !in Bag(req) ==> o == Outcome([], RemoteRequiredText)
    ensures "localPath" in Bag(req) && "remotePath" in Bag(req) ==>
      (Parse(Bag(req)).Err? ==> o == Outcome([], CatchAll(Parse(Bag(req)).fault)))
      && (Parse(Bag(req)).Ok? ==> o == Run(Parse(Bag(req)).value, env))
  {
    var args := Bag(req);
    if "localPath" !in args then Outcome([], LocalRequiredText)
    else if "remotePath" !in args then Outcome([], RemoteRequiredText)
    else match Parse(args)
      case Err(f) => Outcome([], CatchAll(f))
      case Ok(p) => Run(p, env)
  }

  /** The reply to the echo command never affects the outcome. */
  lemma EchoReplyIgnored(p: Params, env: Env, serial: string, reply: seq<string>)
    ensures Run(p, env.(shell := env.shell[(serial, EchoCommand) := reply])) == Run(p, env)
  {
  }
}
