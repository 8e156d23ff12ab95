/**
 * android-shell: accept a shell command for a device and report it as
 * executed. The command is never sent to the device: the reply is built
 * from the command text and the chosen device alone.
 */
module ShellTool {
  import opened Base
  import opened Text
  import opened Args
  import opened Bridge
  import opened Targeting

  /** The keys the tool's input schema declares required. */
  const RequiredKeys: set<string> := {"command"}

  const CommandRequiredText := "Error: command parameter is required"
  const CommandEmptyText := "Error: command cannot be empty"

  function CatchAll(f: Fault): string {
    "Error executing shell command: " + FaultMessage(f)
  }

  /** The reply for a chosen device: the command, the device and a note pointing at adb. */
  function ExecutedText(command: string, d: Device): string {
    "Shell command '" + command + "' executed on device " + d.serial + " (" + ModelName(d) + ")"
      + "\n\nNote: Command execution successful. For detailed output, consider using ADB directly."
  }

  /** After the command has been read: start the server, enumerate, pick by the common rule. */
  function Run(command: string, args: map<string, Arg>, env: Env): (o: Outcome)
    ensures o.commands == ConnectCommands
    ensures env.devices == [] ==> o.text == NotConnectedText
    ensures ResolveDevice(env.devices, StringSerial(args)) == NoMatch ==>
      o.text == NoSuchSerialText(args["deviceSerial"].s)
    ensures ResolveDevice(env.devices, StringSerial(args)).Target? ==>
      o.text == ExecutedText(command, ResolveDevice(env.devices, StringSerial(args)).device)
  {
    var serial := StringSerial(args);
    match ResolveDevice(env.devices, serial)
    case NoDevices => Outcome(ConnectCommands, NotConnectedText)
    case NoMatch => Outcome(ConnectCommands, NoSuchSerialText(serial.value))
    case Target(d) => Outcome(ConnectCommands, ExecutedText(command, d))
  }

  /**
   * The whole tool. The context and its Params are dereferenced without a
   * null check, so a missing one ends in the catch-all; a missing bag or key
   * is reported as required, a value of another kind ends in the catch-all,
   * an empty command is rejected.
   */
  function Invoke(req: Request, env: Env): (o: Outcome)
    ensures !HasParams(req) ==> o == Outcome([], CatchAll(NullDereference))
    ensures HasParams(req) && "command" !in Bag(req) ==> o == Outcome([], CommandRequiredText)
    ensures req.Arguments? && "command" in req.args && !req.args["command"].Str? ==>
      o == Outcome([], CatchAll(WrongKind("command")))
    ensures req.Arguments? && "command" in req.args && req.args["command"] == Str("") ==> o == Outcome([], CommandEmptyText)
    ensures req.Arguments? && "command" in req.args && req.args["command"].Str? && req.args["command"].s != "" ==>
      o == Run(req.args["command"].s, req.args, env)
  {
    if !HasParams(req) then Outcome([], CatchAll(NullDereference))
    else
      var args := Bag(req);
      if "command" !in args then Outcome([], CommandRequiredText)
      else match RequiredString(args, "command")
        case Err(f) => Outcome([], CatchAll(f))
        case Ok(command) => if command == "" then Outcome([], CommandEmptyText) else Run(command, args, env)
  }

  /** No shell command ever reaches a device, whatever is asked. */
  lemma CommandNeverSent(req: Request, env: Env)
    ensures forall c :: c in Invoke(req, env).commands ==> !c.Shell?
  {
  }

  /** What devices would print in reply makes no difference to the answer. */
  lemma ReplyIgnored(req: Request, env: Env, replies: map<(string, string), seq<string>>)
    ensures Invoke(req, env.(shell := replies)) == Invoke(req, env)
  {
  }

  /** With distinct serials, a given serial addresses exactly the device that carries it. */
  lemma SerialPicksItsDevice(command: string, args: map<string, Arg>, env: Env, i: nat)
    requires "deviceSerial" in args && args["deviceSerial"].Str? && args["deviceSerial"].s != ""
    requires DistinctSerials(env.devices)
    requires i < |env.devices| && env.devices[i].serial == args["deviceSerial"].s
    ensures Run(command, args, env).text == ExecutedText(command, env.devices[i])
  {
    assert StringSerial(args) == Some(args["deviceSerial"].s);
    SerialFindsItsDevice(env.devices, args["deviceSerial"].s, i);
  }

  /** Once a command has been read, the answer is never the required-parameter text. */
  lemma RunNotRequired(command: string, args: map<string, Arg>, env: Env)
    ensures Run(command, args, env).text != CommandRequiredText
  {
    var serial := StringSerial(args);
    match ResolveDevice(env.devices, serial)
    case NoDevices => PrefixDiffers(NotConnectedText, "", CommandRequiredText, 7);
    case NoMatch =>
      assert NoSuchSerialText(serial.value)[7] == 'D';
    case Target(d) =>
      assert ExecutedText(command, d)[0] == 'S';
  }

  /** Once command is present, no outcome is the required-parameter text. */
  lemma PresentCommandNotRequired(args: map<string, Arg>, env: Env)
    requires "command" in args
    ensures Invoke(Arguments(args), env).text != CommandRequiredText
  {
    var r := RequiredString(args, "command");
    if r.Err? {
      PrefixDiffers("Error executing shell command: ", FaultMessage(r.fault), CommandRequiredText, 7);
    } else if r.value == "" {
      PrefixDiffers(CommandEmptyText, "", CommandRequiredText, 15);
    } else {
      RunNotRequired(r.value, args, env);
    }
  }

  /**
   * The schema's required set is exactly the set of keys whose absence the
   * tool reports as required: the required-parameter text comes back exactly
   * when a request that has a bag lacks one of them.
   */
  lemma RequiredKeysMatchSchema(req: Request, env: Env)
    requires HasParams(req)
    ensures RequiredKeys <= Bag(req).Keys <==> Invoke(req, env).text != CommandRequiredText
  {
    if RequiredKeys <= Bag(req).Keys {
      PresentCommandNotRequired(req.args, env);
    }
  }
}
