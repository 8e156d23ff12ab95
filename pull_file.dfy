/**
 * android-pull-file: copy a file from a device to the local machine, after
 * checking on the device that the file exists.
 */
module PullFileTool {
  import opened Base
  import opened Text
  import opened Args
  import opened Bridge
  import opened Targeting

  const RemoteRequiredText := "Error: 'remotePath' parameter is required"
  const LocalRequiredText := "Error: 'localPath' parameter is required"

  function RemoteMissingText(remote: string, serial: string): string {
    "Error: Remote file '" + remote + "' not found on device " + serial
  }

  function FailedText(serial: string, reason: string): string {
    "Failed to pull file from device " + serial + ": " + reason
  }

  function CatchAll(f: Fault): string {
    "Error pulling file: " + FaultMessage(f)
  }

  datatype Params = Params(remote: string, local: string, serial: Option<string>)

  /** Reads remotePath and localPath (both present), then deviceSerial. */
  function Parse(args: map<string, Arg>): (r: Result<Params>)
    requires "remotePath" in args && "localPath" in args
    ensures r.Ok? ==> args["remotePath"] == Str(r.value.remote) && args["localPath"] == Str(r.value.local)
    ensures r.Ok? ==> ("deviceSerial" in args <==> r.value.serial.Some?)
    ensures r.Ok? && "deviceSerial" in args ==> args["deviceSerial"] == Str(r.value.serial.value)
  {
    var remote :- RequiredString(args, "remotePath");
    var local :- RequiredString(args, "localPath");
    var serial :- OptionalString(args, "deviceSerial");
    Ok(Params(remote, local, serial))
  }

  /** The shell probe that prints "exists" when the remote path is a regular file. */
  function ProbeCommand(remote: string): string {
    "test -f " + remote + " && echo 'exists' || echo 'not found'"
  }

  /** The probe's verdict: its reply lines, concatenated and trimmed, mention "exists". */
  predicate RemoteExists(reply: seq<string>) {
    Contains(Trim(Join(reply, "")), "exists")
  }

  /** Trimming does not change the verdict: it is whether the raw reply mentions "exists". */
  lemma RemoteExistsIgnoresTrim(reply: seq<string>)
    ensures RemoteExists(reply) <==> Contains(Join(reply, ""), "exists")
  {
    var w := "exists";
    assert w[0] == 'e' && w[|w| - 1] == 's';
    TrimKeepsWord(Join(reply, ""), w);
  }

  /**
   * adb -s S pull "REMOTE" "LOCAL": the arguments address the device first,
   * then name the quoted remote path before the quoted local one, and hold
   * nothing else.
   */
  function PullCommand(serial: string, remote: string, local: string): (c: Command)
    ensures c.RunProcess? && c.fileName == "adb" && c.stdin == []
    ensures StartsWith(c.arguments, "-s " + serial + " pull ")
    ensures EndsWith(c.arguments, "\"" + remote + "\" \"" + local + "\"")
    ensures |c.arguments| == |"-s " + serial + " pull "| + |"\"" + remote + "\" \"" + local + "\""|
  {
    var head := "-s " + serial + " pull ";
    var paths := "\"" + remote + "\" \"" + local + "\"";
    assert (head + paths)[..|head|] == head;
    assert (head + paths)[|head|..] == paths;
    RunProcess("adb", head + paths, [])
  }

  /** Success needs both a zero exit code and the local file afterwards. */
  function PullText(run: ProcessRun, p: Params, serial: string, after: map<string, LocalFile>): (t: string)
    ensures run.Exited? && run.exitCode == 0 && p.local in after ==>
      t == "Successfully pulled '" + p.remote + "' from device " + serial + " to '" + p.local + "' ("
           + NatToString(after[p.local].length) + " bytes)"
    ensures run.Exited? && !(run.exitCode == 0 && p.local in after) ==> t == FailedText(serial, run.stderr)
    ensures run.FailedToStart? ==> t == FailedText(serial, run.message)
  {
    match run
    case Exited(code, _, stderr) =>
      if code == 0 && p.local in after then
        "Successfully pulled '" + p.remote + "' from device " + serial + " to '" + p.local + "' ("
          + NatToString(after[p.local].length) + " bytes)"
      else FailedText(serial, stderr)
    case FailedToStart(m) => FailedText(serial, m)
  }

  function Run(p: Params, env: Env): (o: Outcome)
    ensures ResolveDevice(env.devices, p.serial) == NoDevices ==> o == Outcome([EnumerateDevices], NoDevicesText)
    ensures ResolveDevice(env.devices, p.serial) == NoMatch ==>
      o == Outcome([EnumerateDevices], UnknownSerialText(p.serial.value))
    ensures ResolveDevice(env.devices, p.serial).Target? ==>
      var s := ResolveDevice(env.devices, p.serial).device.serial;
      var probed := [EnumerateDevices, Shell(s, ProbeCommand(p.remote))];
      var reply := ShellOutput(env, s, ProbeCommand(p.remote));
      (!RemoteExists(reply) ==> o == Outcome(probed, RemoteMissingText(p.remote, s)))
      && (RemoteExists(reply) ==>
            o == Outcome(probed + [PullCommand(s, p.remote, p.local)], PullText(env.process, p, s, env.filesAfter)))
  {
    match ResolveDevice(env.devices, p.serial)
    case NoDevices => Outcome([EnumerateDevices], NoDevicesText)
    case NoMatch => Outcome([EnumerateDevices], UnknownSerialText(p.serial.value))
    case Target(d) =>
      var probe := ProbeCommand(p.remote);
      var probed := [EnumerateDevices, Shell(d.serial, probe)];
      if !RemoteExists(ShellOutput(env, d.serial, probe)) then Outcome(probed, RemoteMissingText(p.remote, d.serial))
      else Outcome(probed + [PullCommand(d.serial, p.remote, p.local)], PullText(env.process, p, d.serial, env.filesAfter))
  }

  /** The whole tool: remotePath is required first, then localPath, before anything else is read. */
  function Invoke(req: Request, env: Env): (o: Outcome)
    ensures "remotePath" !in Bag(req) ==> o == Outcome([], RemoteRequiredText)
    ensures "remotePath" in Bag(req) && "localPath" !in Bag(req) ==> o == Outcome([], LocalRequiredText)
    ensures "remotePath" in Bag(req) && "localPath" in Bag(req) ==>
      (Parse(Bag(req)).Err? ==> o == Outcome([], CatchAll(Parse(Bag(req)).fault)))
      && (Parse(Bag(req)).Ok? ==> o == Run(Parse(Bag(req)).value, env))
  {
    var args := Bag(req);
    if "remotePath" !in args then Outcome([], RemoteRequiredText)
    else if "localPath" !in args then Outcome([], LocalRequiredText)
    else match Parse(args)
      case Err(f) => Outcome([], CatchAll(f))
      case Ok(p) => Run(p, env)
  }

  /** In shell commands followed by one last command, the last is the only process run. */
  lemma OnlyRunIsLast(probed: seq<Command>, last: Command, c: Command)
    requires forall x :: x in probed ==> !x.RunProcess?
    requires c in probed + [last] && c.RunProcess?
    ensures c == last
  {
  }

  /** A process runs only once a device has been picked. */
  lemma ProcessOnlyOnTarget(p: Params, env: Env, c: Command)
    requires c in Run(p, env).commands && c.RunProcess?
    ensures ResolveDevice(env.devices, p.serial).Target?
  {
  }

  /** Nothing is pulled unless the probe's raw reply mentions "exists". */
  lemma PullOnlyAfterProbe(p: Params, env: Env, c: Command)
    requires c in Run(p, env).commands && c.RunProcess?
    ensures ResolveDevice(env.devices, p.serial).Target?
    ensures var s := ResolveDevice(env.devices, p.serial).device.serial;
      Contains(Join(ShellOutput(env, s, ProbeCommand(p.remote)), ""), "exists")
      && c == PullCommand(s, p.remote, p.local)
  {
    ProcessOnlyOnTarget(p, env, c);
    var s := ResolveDevice(env.devices, p.serial).device.serial;
    var reply := ShellOutput(env, s, ProbeCommand(p.remote));
    RemoteExistsIgnoresTrim(reply);
    if RemoteExists(reply) {
      OnlyRunIsLast([EnumerateDevices, Shell(s, ProbeCommand(p.remote))], PullCommand(s, p.remote, p.local), c);
    }
  }
}
