/**
 * android-logcat: dump the recent log of a device, optionally clearing it
 * first and keeping only the lines that contain a filter.
 */
module LogcatTool {
  import opened Base
  import opened Text
  import opened Listing
  import opened Args
  import opened Bridge
  import opened Targeting

  /** The most lines a request may ask for, and the count used when it asks for none. */
  const MaxLines := 1000
  const DefaultLines := 100
  const DefaultLevel := "I"

  function NoEntriesText(serial: string): string {
    "No logcat entries found on device " + serial
  }

  function NoMatchText(filter: string, serial: string): string {
    "No logcat entries found matching filter '" + filter + "' on device " + serial
  }

  function CatchAll(f: Fault): string {
    "Error getting logcat: " + FaultMessage(f)
  }

  datatype Params = Params(serial: Option<string>, filter: Option<string>, level: string, lines: int, clear: bool)

  /** The line count: the requested one capped at 1000 (a 32-bit integer), or 100 when none is requested. */
  function LineCount(args: map<string, Arg>): (r: Result<int>)
    ensures "lines" !in args ==> r == Ok(DefaultLines)
    ensures "lines" in args && r.Ok? ==> args["lines"].Int? && r.value == Min(args["lines"].i, MaxLines)
    ensures "lines" in args && args["lines"].Int? && Int32Min <= args["lines"].i <= Int32Max ==> r.Ok?
    ensures r.Ok? ==> r.value <= MaxLines
  {
    if "lines" in args then
      var n :- Int32(args, "lines");
      Ok(Min(n, MaxLines))
    else Ok(DefaultLines)
  }

  /** Reads deviceSerial, filter, level (default "I"), lines and clear, all optional. */
  function Parse(args: map<string, Arg>): (r: Result<Params>)
    ensures r.Ok? ==> ("deviceSerial" in args <==> r.value.serial.Some?)
    ensures r.Ok? && "deviceSerial" in args ==> args["deviceSerial"] == Str(r.value.serial.value)
    ensures r.Ok? ==> ("filter" in args <==> r.value.filter.Some?)
    ensures r.Ok? && "filter" in args ==> args["filter"] == Str(r.value.filter.value)
    ensures r.Ok? ==> ("level" in args ==> args["level"] == Str(r.value.level))
    ensures r.Ok? ==> ("level" !in args ==> r.value.level == DefaultLevel)
    ensures r.Ok? ==> LineCount(args) == Ok(r.value.lines)
    ensures r.Ok? ==> (r.value.clear <==> "clear" in args && args["clear"] == Bool(true))
    ensures args == map[] ==> r == Ok(Params(None, None, DefaultLevel, DefaultLines, false))
  {
    var serial :- OptionalString(args, "deviceSerial");
    var filter :- OptionalString(args, "filter");
    var level :- StringOr(args, "level", DefaultLevel);
    var lines :- LineCount(args);
    var clear :- Flag(args, "clear");
    Ok(Params(serial, filter, level, lines, clear))
  }

  /** "logcat -d -t N", with " *:LEVEL" appended exactly when the level is non-empty. */
  function LogcatCommand(lines: int, level: string): (cmd: string)
    ensures level == "" ==> cmd == "logcat -d -t " + IntToString(lines)
    ensures level != "" ==> cmd == "logcat -d -t " + IntToString(lines) + " *:" + level
  {
    "logcat -d -t " + IntToString(lines) + (if level == "" then "" else " *:" + level)
  }

  /** " (logs cleared)" exactly when the log was cleared. */
  function ClearedNote(clear: bool): (t: string)
    ensures t == "" <==> !clear
    ensures clear ==> t == " (logs cleared)"
  {
    if clear then " (logs cleared)" else ""
  }

  /** The summary line: device, then the filter, then the clearing, then level and line count, in that order. */
  function Summary(serial: string, p: Params): string {
    "Logcat from device " + serial + FilterNote(p.filter) + ClearedNote(p.clear)
      + " (level: " + p.level + ", lines: " + IntToString(p.lines) + ")"
  }

  /** The shell commands issued on the target: the optional clear, then the dump. */
  function TargetCommands(serial: string, p: Params): (cmds: seq<Command>)
    ensures |cmds| >= 1 && cmds[|cmds| - 1] == Shell(serial, LogcatCommand(p.lines, p.level))
    ensures p.clear <==> |cmds| == 2
    ensures p.clear ==> cmds[0] == Shell(serial, "logcat -c")
    ensures |cmds| <= 2
  {
    (if p.clear then [Shell(serial, "logcat -c")] else []) + [Shell(serial, LogcatCommand(p.lines, p.level))]
  }

  /** What is done with the dump of the target's log. */
  function Render(serial: string, p: Params, raw: string): (t: string)
    ensures IsBlank(raw) ==> t == NoEntriesText(serial)
    ensures !IsBlank(raw) && IsNullOrEmpty(p.filter) ==> t == Summary(serial, p) + ":\n\n" + raw
    ensures !IsBlank(raw) && !IsNullOrEmpty(p.filter) ==>
      var kept := KeepContaining(Split(raw, '\n'), p.filter.value);
      (kept == [] ==> t == NoMatchText(p.filter.value, serial))
      && (kept != [] && IsBlank(Join(kept, "\n")) ==> t == NoEntriesText(serial))
      && (kept != [] && !IsBlank(Join(kept, "\n")) ==> t == Summary(serial, p) + ":\n\n" + Join(kept, "\n"))
  {
    if IsBlank(raw) then NoEntriesText(serial)
    else if IsNullOrEmpty(p.filter) then Summary(serial, p) + ":\n\n" + raw
    else
      var kept := KeepContaining(Split(raw, '\n'), p.filter.value);
      if kept == [] then NoMatchText(p.filter.value, serial)
      else
        var filtered := Join(kept, "\n");
        if IsBlank(filtered) then NoEntriesText(serial)
        else Summary(serial, p) + ":\n\n" + filtered
  }

  function Run(p: Params, env: Env): (o: Outcome)
    ensures ResolveDevice(env.devices, p.serial) == NoDevices ==> o == Outcome([EnumerateDevices], NoDevicesText)
    ensures ResolveDevice(env.devices, p.serial) == NoMatch ==>
      o == Outcome([EnumerateDevices], UnknownSerialText(p.serial.value))
    ensures ResolveDevice(env.devices, p.serial).Target? ==>
      var s := ResolveDevice(env.devices, p.serial).device.serial;
      var cmd := LogcatCommand(p.lines, p.level);
      o == Outcome([EnumerateDevices] + TargetCommands(s, p), Render(s, p, Join(ShellOutput(env, s, cmd), "\n")))
  {
    match ResolveDevice(env.devices, p.serial)
    case NoDevices => Outcome([EnumerateDevices], NoDevicesText)
    case NoMatch => Outcome([EnumerateDevices], UnknownSerialText(p.serial.value))
    case Target(d) =>
      var cmd := LogcatCommand(p.lines, p.level);
      Outcome([EnumerateDevices] + TargetCommands(d.serial, p), Render(d.serial, p, Join(ShellOutput(env, d.serial, cmd), "\n")))
  }

  /** The whole tool: a bad argument kind is caught and reported, never thrown. */
  function Invoke(req: Request, env: Env): (o: Outcome)
    ensures Parse(Bag(req)).Err? ==> o == Outcome([], CatchAll(Parse(Bag(req)).fault))
    ensures Parse(Bag(req)).Ok? ==> o == Run(Parse(Bag(req)).value, env)
  {
    match Parse(Bag(req))
    case Err(f) => Outcome([], CatchAll(f))
    case Ok(p) => Run(p, env)
  }

  /**
   * Joining the shell's lines and splitting them again loses nothing, so the
   * filter is applied to exactly the lines the device printed: the report
   * shows those lines that contain the filter, in their order.
   */
  lemma FilterSeesShellLines(serial: string, p: Params, lines: seq<string>)
    requires lines != []
    requires forall i :: 0 <= i < |lines| ==> '\n' !in lines[i]
    requires !IsNullOrEmpty(p.filter)
    requires !IsBlank(Join(lines, "\n"))
    ensures Split(Join(lines, "\n"), '\n') == lines
    ensures KeepContaining(lines, p.filter.value) == [] ==>
      Render(serial, p, Join(lines, "\n")) == NoMatchText(p.filter.value, serial)
    ensures var kept := KeepContaining(lines, p.filter.value);
      kept != [] && !IsBlank(Join(kept, "\n")) ==>
        Render(serial, p, Join(lines, "\n")) == Summary(serial, p) + ":\n\n" + Join(kept, "\n")
  {
    SplitJoin(lines, '\n');
  }
}
