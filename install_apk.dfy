/**
 * android-install-apk: check that a local APK exists and that a device is
 * available, then report the installation as prepared. Nothing is installed:
 * the reply tells the caller which adb command completes it.
 */
module InstallApkTool {
  import opened Base
  import opened Text
  import opened Args
  import opened Bridge
  import opened Targeting

  /** The keys the tool's input schema declares required. */
  const RequiredKeys: set<string> := {"apkPath"}

  const PathRequiredText := "Error: apkPath parameter is required"
  const PathEmptyText := "Error: apkPath cannot be empty"

  function NotFoundText(path: string): string {
    "Error: APK file not found at path: " + path
  }

  function CatchAll(f: Fault): string {
    "Error preparing APK installation: " + FaultMessage(f)
  }

  /** The reply once the file and the device are both in place; it names the adb command that completes the job. */
  function PreparedText(d: Device, path: string, file: LocalFile): string {
    var command := "'adb install " + path + "'";
    "APK install prepared for device " + d.serial + " (" + ModelName(d) + "):\n\n"
      + "APK: " + file.fileName + "\n"
      + "Size: " + file.lengthGrouped + " bytes\n"
      + "Path: " + path + "\n\n"
      + "Note: APK file validated and device ready. Use " + command + " to complete installation."
  }

  /** The prepared reply names the device and ends with the adb command that completes the installation. */
  lemma PreparedTextNamesCommand(d: Device, path: string, file: LocalFile)
    ensures StartsWith(PreparedText(d, path, file), "APK install prepared for device " + d.serial)
    ensures Contains(PreparedText(d, path, file), "'adb install " + path + "'")
  {
    var command := "'adb install " + path + "'";
    var head := "APK install prepared for device " + d.serial;
    var p1 := head + " (" + ModelName(d) + "):\n\n";
    var p2 := p1 + "APK: " + file.fileName + "\n";
    var p3 := p2 + "Size: " + file.lengthGrouped + " bytes\n";
    var p4 := p3 + "Path: " + path + "\n\n";
    var before := p4 + "Note: APK file validated and device ready. Use ";
    var after := " to complete installation.";
    assert PreparedText(d, path, file) == before + command + after;
    ContainsPiece(before, command, after);
    assert StartsWith(before + command + after, head) by {
      assert StartsWith(p1, head);
      assert StartsWith(p2, head) by {
        StartsWithAppend(p1, "APK: ", head);
        StartsWithAppend(p1 + "APK: ", file.fileName, head);
        StartsWithAppend(p1 + "APK: " + file.fileName, "\n", head);
      }
      assert StartsWith(p3, head) by {
        StartsWithAppend(p2, "Size: ", head);
        StartsWithAppend(p2 + "Size: ", file.lengthGrouped, head);
        StartsWithAppend(p2 + "Size: " + file.lengthGrouped, " bytes\n", head);
      }
      assert StartsWith(p4, head) by {
        StartsWithAppend(p3, "Path: ", head);
        StartsWithAppend(p3 + "Path: ", path, head);
        StartsWithAppend(p3 + "Path: " + path, "\n\n", head);
      }
      StartsWithAppend(p4, "Note: APK file validated and device ready. Use ", head);
      StartsWithAppend(before, command, head);
      StartsWithAppend(before + command, after, head);
    }
  }

  /**
   * After the path has been read: the file must exist before adb is touched;
   * then the server is started, the devices are enumerated and the target is
   * picked by the common rule from a string-kinded serial.
   */
  function Run(path: string, args: map<string, Arg>, env: Env): (o: Outcome)
    ensures path !in env.filesBefore ==> o == Outcome([], NotFoundText(path))
    ensures path in env.filesBefore ==> o.commands == ConnectCommands
    ensures path in env.filesBefore && env.devices == [] ==> o.text == NotConnectedText
    ensures path in env.filesBefore && ResolveDevice(env.devices, StringSerial(args)) == NoMatch ==>
      o.text == NoSuchSerialText(args["deviceSerial"].s)
    ensures path in env.filesBefore && ResolveDevice(env.devices, StringSerial(args)).Target? ==>
      o.text == PreparedText(ResolveDevice(env.devices, StringSerial(args)).device, path, env.filesBefore[path])
  {
    if path !in env.filesBefore then Outcome([], NotFoundText(path))
    else
      var serial := StringSerial(args);
      match ResolveDevice(env.devices, serial)
      case NoDevices => Outcome(ConnectCommands, NotConnectedText)
      case NoMatch => Outcome(ConnectCommands, NoSuchSerialText(serial.value))
      case Target(d) => Outcome(ConnectCommands, PreparedText(d, path, env.filesBefore[path]))
  }

  /**
   * The whole tool. The context and its Params are dereferenced without a
   * null check, so a missing context or Params ends in the catch-all; a missing bag or key is reported
   * as required, a value of another kind ends in the catch-all, and an empty
   * path is rejected before the file system is consulted.
   */
  function Invoke(req: Request, env: Env): (o: Outcome)
    ensures !HasParams(req) ==> o == Outcome([], CatchAll(NullDereference))
    ensures HasParams(req) && "apkPath" !in Bag(req) ==> o == Outcome([], PathRequiredText)
    ensures req.Arguments? && "apkPath" in req.args && !req.args["apkPath"].Str? ==>
      o == Outcome([], CatchAll(WrongKind("apkPath")))
    ensures req.Arguments? && "apkPath" in req.args && req.args["apkPath"] == Str("") ==> o == Outcome([], PathEmptyText)
    ensures req.Arguments? && "apkPath" in req.args && req.args["apkPath"].Str? && req.args["apkPath"].s != "" ==>
      o == Run(req.args["apkPath"].s, req.args, env)
  {
    if !HasParams(req) then Outcome([], CatchAll(NullDereference))
    else
      var args := Bag(req);
      if "apkPath" !in args then Outcome([], PathRequiredText)
      else match RequiredString(args, "apkPath")
        case Err(f) => Outcome([], CatchAll(f))
        case Ok(path) => if path == "" then Outcome([], PathEmptyText) else Run(path, args, env)
  }

  /** adb is contacted only for an existing file: every invocation that issues a command names one. */
  lemma CommandsOnlyForExistingFile(req: Request, env: Env)
    requires Invoke(req, env).commands != []
    ensures req.Arguments? && "apkPath" in req.args && req.args["apkPath"].Str?
    ensures req.args["apkPath"].s != "" && req.args["apkPath"].s in env.filesBefore
  {
  }

  /** A serial of a kind other than string is ignored: the reply is the one without any serial. */
  lemma NonStringSerialIgnored(path: string, args: map<string, Arg>, env: Env)
    requires "deviceSerial" in args && !args["deviceSerial"].Str?
    ensures Run(path, args, env) == Run(path, args - {"deviceSerial"}, env)
  {
    assert StringSerial(args) == StringSerial(args - {"deviceSerial"});
  }

  /** Once a path has been read, the answer is never the required-parameter text. */
  lemma RunNotRequired(path: string, args: map<string, Arg>, env: Env)
    ensures Run(path, args, env).text != PathRequiredText
  {
    if path !in env.filesBefore {
      assert NotFoundText(path)[7] == 'A';
    } else {
      var serial := StringSerial(args);
      match ResolveDevice(env.devices, serial)
      case NoDevices => PrefixDiffers(NotConnectedText, "", PathRequiredText, 7);
      case NoMatch =>
        assert NoSuchSerialText(serial.value)[7] == 'D';
      case Target(d) =>
        var t := PreparedText(d, path, env.filesBefore[path]);
        var head := "APK install prepared for device " + d.serial;
        PreparedTextNamesCommand(d, path, env.filesBefore[path]);
        assert t[0] == t[..|head|][0] == head[0] == 'A';
    }
  }

  /** Once apkPath is present, no outcome is the required-parameter text. */
  lemma PresentPathNotRequired(args: map<string, Arg>, env: Env)
    requires "apkPath" in args
    ensures Invoke(Arguments(args), env).text != PathRequiredText
  {
    var r := RequiredString(args, "apkPath");
    if r.Err? {
      PrefixDiffers("Error preparing APK installation: ", FaultMessage(r.fault), PathRequiredText, 7);
    } else if r.value == "" {
      PrefixDiffers(PathEmptyText, "", PathRequiredText, 15);
    } else {
      RunNotRequired(r.value, args, env);
    }
  }

  /**
   * The schema's required set is exactly the set of keys whose absence the
   * tool reports as required: the required-parameter text comes back exactly
   * when a request that has a bag lacks one of them.
   */
  lemma RequiredKeysMatchSchema(req: Request, env: Env)
    requires HasParams(req)
    ensures RequiredKeys <= Bag(req).Keys <==> Invoke(req, env).text != PathRequiredText
  {
    if RequiredKeys <= Bag(req).Keys {
      PresentPathNotRequired(req.args, env);
    }
  }
}
