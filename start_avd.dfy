/**
 * android-start-avd: launch the emulator on a configured AVD, optionally
 * headless and with its data wiped, without waiting for it to boot. The
 * emulator's argument list and the options shown in the reply are built by
 * appending to lists, as the tool does.
 */
module StartAvdTool {
  import opened Base
  import opened Text
  import opened Args
  import opened Bridge

  const NameRequiredText := "Error: 'name' parameter is required"

  function NotFoundText(name: string): string {
    "Error: AVD '" + name + "' not found. Use android-list-avds to see available AVDs."
  }

  function StartedText(name: string, options: string): string {
    "Successfully started AVD '" + name + "'" + options + ". It may take a few moments to fully boot."
  }

  function NotStartedText(name: string, message: string): string {
    "Failed to start AVD '" + name + "'. Please ensure Android SDK tools are installed and in PATH. Error: " + message
  }

  function CatchAll(f: Fault): string {
    "Error starting AVD: " + FaultMessage(f)
  }

  datatype Params = Params(name: string, noWindow: bool, wipeData: bool)

  /** Reads name (present), then the noWindow and wipeData flags. */
  function Parse(args: map<string, Arg>): (r: Result<Params>)
    requires "name" in args
    ensures r.Ok? ==> args["name"] == Str(r.value.name)
    ensures r.Ok? ==> (r.value.noWindow <==> "noWindow" in args && args["noWindow"] == Bool(true))
    ensures r.Ok? ==> (r.value.wipeData <==> "wipeData" in args && args["wipeData"] == Bool(true))
  {
    var name :- RequiredString(args, "name");
    var noWindow :- Flag(args, "noWindow");
    var wipeData :- Flag(args, "wipeData");
    Ok(Params(name, noWindow, wipeData))
  }

  /** Joining the emulator's arguments with single spaces, for each combination of flags. */
  lemma JoinedArguments(head: string)
    ensures Join([head], " ") == head + "" + ""
    ensures Join([head, "-no-window"], " ") == head + " -no-window" + ""
    ensures Join([head, "-wipe-data"], " ") == head + "" + " -wipe-data"
    ensures Join([head, "-no-window", "-wipe-data"], " ") == head + " -no-window" + " -wipe-data"
  {
    JoinSmall(head, "-no-window", "-wipe-data", " ");
    JoinSmall(head, "-wipe-data", "", " ");
    assert head + " " + "-no-window" == head + " -no-window" + "";
    assert head + " " + "-wipe-data" == head + "" + " -wipe-data";
    assert head == head + "" + "";
    assert head + " " + "-no-window" + " " + "-wipe-data" == head + " -no-window" + " -wipe-data";
  }

  /**
   * The emulator's command line: "@NAME", then "-no-window" when headless,
   * then "-wipe-data" when wiping, separated by single spaces.
   */
  method EmulatorArguments(p: Params) returns (line: string)
    ensures line == "@" + p.name + (if p.noWindow then " -no-window" else "") + (if p.wipeData then " -wipe-data" else "")
  {
    var args := ["@" + p.name];
    if p.noWindow {
      args := args + ["-no-window"];
    }
    if p.wipeData {
      args := args + ["-wipe-data"];
    }
    var head := "@" + p.name;
    JoinedArguments(head);
    if p.noWindow && p.wipeData {
      assert args == [head, "-no-window", "-wipe-data"];
    } else if p.noWindow {
      assert args == [head, "-no-window"];
    } else if p.wipeData {
      assert args == [head, "-wipe-data"];
    }
    line := Join(args, " ");
  }

  /** The parenthesised options for each non-empty list of them. */
  lemma JoinedOptions()
    ensures " (" + Join(["headless mode"], ", ") + ")" == " (headless mode)"
    ensures " (" + Join(["wiped data"], ", ") + ")" == " (wiped data)"
    ensures " (" + Join(["headless mode", "wiped data"], ", ") + ")" == " (headless mode, wiped data)"
  {
    JoinSmall("headless mode", "wiped data", "", ", ");
    JoinSmall("wiped data", "", "", ", ");
  }

  /**
   * The options named in the reply: "headless mode" then "wiped data" for the
   * flags that are set, comma-separated in parentheses, and nothing at all when
   * neither is set.
   */
  method OptionsText(p: Params) returns (text: string)
    ensures !p.noWindow && !p.wipeData ==> text == ""
    ensures p.noWindow && !p.wipeData ==> text == " (headless mode)"
    ensures !p.noWindow && p.wipeData ==> text == " (wiped data)"
    ensures p.noWindow && p.wipeData ==> text == " (headless mode, wiped data)"
  {
    var options: seq<string> := [];
    if p.noWindow {
      options := options + ["headless mode"];
    }
    if p.wipeData {
      options := options + ["wiped data"];
    }
    JoinedOptions();
    text := if |options| > 0 then " (" + Join(options, ", ") + ")" else "";
  }

  /**
   * The whole tool. A missing name is reported first; an AVD that is not
   * configured (ignoring case) starts nothing; otherwise the emulator is
   * started and the start reported without waiting for its exit.
   */
  method Invoke(req: Request, env: Env) returns (o: Outcome)
    ensures "name" !in Bag(req) ==> o == Outcome([], NameRequiredText)
    ensures "name" in Bag(req) && Parse(Bag(req)).Err? ==> o == Outcome([], CatchAll(Parse(Bag(req)).fault))
    ensures "name" in Bag(req) && Parse(Bag(req)).Ok? && !KnownAvd(env.avds, Parse(Bag(req)).value.name) ==>
      o == Outcome([EnumerateAvds], NotFoundText(Parse(Bag(req)).value.name))
    ensures "name" in Bag(req) && Parse(Bag(req)).Ok? && KnownAvd(env.avds, Parse(Bag(req)).value.name) ==>
      var p := Parse(Bag(req)).value;
      |o.commands| == 2 && o.commands[0] == EnumerateAvds
      && o.commands[1] == RunProcess("emulator",
           "@" + p.name + (if p.noWindow then " -no-window" else "") + (if p.wipeData then " -wipe-data" else ""), [])
      && (env.process.FailedToStart? ==> o.text == NotStartedText(p.name, env.process.message))
      && (env.process.Exited? ==> o.text == StartedText(p.name,
            if p.noWindow && p.wipeData then " (headless mode, wiped data)"
            else if p.noWindow then " (headless mode)"
            else if p.wipeData then " (wiped data)"
            else ""))
  {
    var args := Bag(req);
    if "name" !in args {
      return Outcome([], NameRequiredText);
    }
    var parsed := Parse(args);
    if parsed.Err? {
      return Outcome([], CatchAll(parsed.fault));
    }
    var p := parsed.value;
    if !KnownAvd(env.avds, p.name) {
      return Outcome([EnumerateAvds], NotFoundText(p.name));
    }
    var line := EmulatorArguments(p);
    var commands := [EnumerateAvds, RunProcess("emulator", line, [])];
    if env.process.FailedToStart? {
      return Outcome(commands, NotStartedText(p.name, env.process.message));
    }
    var options := OptionsText(p);
    o := Outcome(commands, StartedText(p.name, options));
  }
}
