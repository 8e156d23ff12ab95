/**
 * android-sdk-manager: list, install or update SDK packages by running the
 * sdkmanager command line tool; uninstalling is refused.
 */
module SdkManagerTool {
  import opened Base
  import opened Text
  import opened Listing
  import opened Args
  import opened Bridge

  /** How many lines of the package listing are shown at most. */
  const Cap: nat := 50

  const ActionRequiredText := "Error: 'action' parameter is required"
  const PackageRequiredText := "Error: 'package' parameter is required for install action"
  const UninstallText := "Uninstall action is not supported. Use Android Studio or manually delete SDK components."
  const NothingListedText := "No SDK packages found"
  const InstallHint := ". Ensure Android SDK tools are installed and in PATH."

  function UnknownActionText(action: string): string {
    "Error: Unknown action '" + action + "'. Use: list, install, or update"
  }

  function CatchAll(f: Fault): string {
    "Error managing SDK: " + FaultMessage(f)
  }

  /** The answers written to sdkmanager's standard input to accept licenses: ten lines of "y". */
  function LicenseAnswers(): (ys: seq<string>)
    ensures |ys| == 10
    ensures forall i :: 0 <= i < |ys| ==> ys[i] == "y"
  {
    seq(10, _ => "y")
  }

  /** The action, already lower-cased, and the optional arguments. */
  datatype Params = Params(action: string, package: Option<string>, filter: Option<string>,
                           includeObsolete: bool, acceptLicenses: bool)

  /** Reads action (present) lower-cased, then package, filter, includeObsolete and acceptLicenses. */
  function Parse(args: map<string, Arg>): (r: Result<Params>)
    requires "action" in args
    ensures r.Ok? ==> args["action"].Str? && r.value.action == Lower(args["action"].s)
    ensures r.Ok? ==> ("package" in args <==> r.value.package.Some?)
    ensures r.Ok? && "package" in args ==> args["package"] == Str(r.value.package.value)
    ensures r.Ok? ==> ("filter" in args <==> r.value.filter.Some?)
    ensures r.Ok? && "filter" in args ==> args["filter"] == Str(r.value.filter.value)
    ensures r.Ok? ==> (r.value.includeObsolete <==> "includeObsolete" in args && args["includeObsolete"] == Bool(true))
    ensures r.Ok? ==> (r.value.acceptLicenses <==> "acceptLicenses" in args && args["acceptLicenses"] == Bool(true))
    ensures args == map["action" := args["action"]] && args["action"].Str? ==>
      r == Ok(Params(Lower(args["action"].s), None, None, false, false))
  {
    var action :- RequiredString(args, "action");
    var package :- OptionalString(args, "package");
    var filter :- OptionalString(args, "filter");
    var includeObsolete :- Flag(args, "includeObsolete");
    var acceptLicenses :- Flag(args, "acceptLicenses");
    Ok(Params(Lower(action), package, filter, includeObsolete, acceptLicenses))
  }

  // ---------------------------------------------------------------- list

  function ListArguments(includeObsolete: bool): (a: string)
    ensures includeObsolete ==> a == "--list --include_obsolete"
    ensures !includeObsolete ==> a == "--list"
  {
    if includeObsolete then "--list --include_obsolete" else "--list"
  }

  /** Of the output's lines, the non-blank ones that match the filter. */
  function KeptLines(output: seq<string>, filter: Option<string>): seq<string> {
    Matching(Filter(output, (line: string) => !IsBlank(line)), filter)
  }

  /** Keeping lines distributes over concatenation, so the kept lines keep the output's order. */
  lemma KeptLinesAppend(a: seq<string>, b: seq<string>, filter: Option<string>)
    ensures KeptLines(a + b, filter) == KeptLines(a, filter) + KeptLines(b, filter)
  {
    FilterAppend(a, b, (line: string) => !IsBlank(line));
    MatchingAppend(Filter(a, (line: string) => !IsBlank(line)), Filter(b, (line: string) => !IsBlank(line)), filter);
  }

  /** A single line is kept exactly when it is not blank and matches the filter. */
  lemma KeptLinesSingle(x: string, filter: Option<string>)
    ensures KeptLines([x], filter)
      == if !IsBlank(x) && (IsNullOrEmpty(filter) || ContainsIgnoreCase(x, filter.value)) then [x] else []
  {
    assert [x][1..] == [];
    if !IsBlank(x) {
      MatchingSingle(x, filter);
    }
  }

  /** The listing's lines worth showing: the non-blank ones that match the filter. */
  function ListedLines(stdout: string, filter: Option<string>): (lines: seq<string>)
    ensures forall i :: 0 <= i < |lines| ==> !IsBlank(lines[i]) && '\n' !in lines[i]
    ensures forall x :: x in lines <==>
      x in Split(stdout, '\n') && !IsBlank(x) && (IsNullOrEmpty(filter) || ContainsIgnoreCase(x, filter.value))
  {
    KeptLines(Split(stdout, '\n'), filter)
  }

  /** The output read line by line: what is listed is what KeptLines keeps of those lines, in their order. */
  lemma ListedLinesOfOutput(output: seq<string>, filter: Option<string>)
    requires |output| >= 1
    requires forall i :: 0 <= i < |output| ==> '\n' !in output[i]
    ensures ListedLines(Join(output, "\n"), filter) == KeptLines(output, filter)
  {
    SplitJoin(output, '\n');
  }

  /** The text for a finished listing run. */
  function ListText(run: ProcessRun, filter: Option<string>): (t: string)
    ensures run.FailedToStart? ==> t == "Error listing packages: " + run.message + InstallHint
    ensures run.Exited? && run.exitCode != 0 ==> t == "Error listing SDK packages: " + run.stderr
    ensures run.Exited? && run.exitCode == 0 && ListedLines(run.stdout, filter) == [] ==>
      t == (if IsNullOrEmpty(filter) then NothingListedText
            else "No SDK packages found matching filter '" + filter.value + "'")
    ensures run.Exited? && run.exitCode == 0 && ListedLines(run.stdout, filter) != [] ==>
      t == "SDK packages (showing first 50 entries):\n\n" + Join(Paginate(ListedLines(run.stdout, filter), Cap).shown, "\n")
  {
    match run
    case FailedToStart(m) => "Error listing packages: " + m + InstallHint
    case Exited(code, stdout, stderr) =>
      if code != 0 then "Error listing SDK packages: " + stderr
      else
        var lines := ListedLines(stdout, filter);
        if lines == [] then
          (if IsNullOrEmpty(filter) then NothingListedText else "No SDK packages found matching filter '" + filter.value + "'")
        else "SDK packages (showing first 50 entries):\n\n" + Join(Paginate(lines, Cap).shown, "\n")
  }

  /**
   * The listing shows exactly the first min(50, n) of the n kept lines, one
   * per line of the text after the heading.
   */
  lemma ListShowsFirstLines(stdout: string, filter: Option<string>)
    requires ListedLines(stdout, filter) != []
    ensures var lines := ListedLines(stdout, filter);
      var shown := Paginate(lines, Cap).shown;
      |shown| == Min(50, |lines|) && shown == lines[..|shown|]
      && Split(Join(shown, "\n"), '\n') == shown
  {
    var lines := ListedLines(stdout, filter);
    var shown := Paginate(lines, Cap).shown;
    assert forall i :: 0 <= i < |shown| ==> shown[i] == lines[i];
    SplitJoin(shown, '\n');
  }

  // ---------------------------------------------------------------- install and update

  /** The sdkmanager arguments and standard input for installing a package. */
  function InstallCommand(package: string, acceptLicenses: bool): (c: Command)
    ensures c.RunProcess? && c.fileName == "sdkmanager"
    ensures acceptLicenses ==> c.arguments == "\"" + package + "\"" && c.stdin == LicenseAnswers()
    ensures !acceptLicenses ==> c.arguments == "--no-https \"" + package + "\"" && c.stdin == []
  {
    if acceptLicenses then RunProcess("sdkmanager", "\"" + package + "\"", LicenseAnswers())
    else RunProcess("sdkmanager", "--no-https \"" + package + "\"", [])
  }

  function InstallText(run: ProcessRun, package: string): (t: string)
    ensures run.Exited? && run.exitCode == 0 ==> t == "Successfully installed SDK package '" + package + "'"
    ensures run.Exited? && run.exitCode != 0 ==> t == "Failed to install SDK package '" + package + "': " + run.stderr
    ensures run.FailedToStart? ==> t == "Error installing package: " + run.message + InstallHint
  {
    match run
    case Exited(code, _, stderr) =>
      if code == 0 then "Successfully installed SDK package '" + package + "'"
      else "Failed to install SDK package '" + package + "': " + stderr
    case FailedToStart(m) => "Error installing package: " + m + InstallHint
  }

  /** The sdkmanager arguments and standard input for updating every package. */
  function UpdateCommand(acceptLicenses: bool): (c: Command)
    ensures c.RunProcess? && c.fileName == "sdkmanager" && c.arguments == "--update"
    ensures c.stdin == (if acceptLicenses then LicenseAnswers() else [])
  {
    RunProcess("sdkmanager", "--update", if acceptLicenses then LicenseAnswers() else [])
  }

  function UpdateText(run: ProcessRun): (t: string)
    ensures run.Exited? && run.exitCode == 0 ==> t == "Successfully updated all SDK packages"
    ensures run.Exited? && run.exitCode != 0 ==> t == "Failed to update SDK packages: " + run.stderr
    ensures run.FailedToStart? ==> t == "Error updating packages: " + run.message + InstallHint
  {
    match run
    case Exited(code, _, stderr) =>
      if code == 0 then "Successfully updated all SDK packages" else "Failed to update SDK packages: " + stderr
    case FailedToStart(m) => "Error updating packages: " + m + InstallHint
  }

  // ---------------------------------------------------------------- dispatch

  /** The switch on the lower-cased action. */
  function Dispatch(p: Params, env: Env): (o: Outcome)
    ensures p.action == "list" ==>
      o == Outcome([RunProcess("sdkmanager", ListArguments(p.includeObsolete), [])], ListText(env.process, p.filter))
    ensures p.action == "install" && IsNullOrEmpty(p.package) ==> o == Outcome([], PackageRequiredText)
    ensures p.action == "install" && !IsNullOrEmpty(p.package) ==>
      o == Outcome([InstallCommand(p.package.value, p.acceptLicenses)], InstallText(env.process, p.package.value))
    ensures p.action == "update" ==> o == Outcome([UpdateCommand(p.acceptLicenses)], UpdateText(env.process))
    ensures p.action == "uninstall" ==> o == Outcome([], UninstallText)
    ensures p.action !in {"list", "install", "update", "uninstall"} ==> o == Outcome([], UnknownActionText(p.action))
  {
    match p.action
    case "list" =>
      Outcome([RunProcess("sdkmanager", ListArguments(p.includeObsolete), [])], ListText(env.process, p.filter))
    case "install" =>
      if IsNullOrEmpty(p.package) then Outcome([], PackageRequiredText)
      else Outcome([InstallCommand(p.package.value, p.acceptLicenses)], InstallText(env.process, p.package.value))
    case "update" => Outcome([UpdateCommand(p.acceptLicenses)], UpdateText(env.process))
    case "uninstall" => Outcome([], UninstallText)
    case _ => Outcome([], UnknownActionText(p.action))
  }

  /** The whole tool: a missing action is reported before anything else is read. */
  function Invoke(req: Request, env: Env): (o: Outcome)
    ensures "action" !in Bag(req) ==> o == Outcome([], ActionRequiredText)
    ensures "action" in Bag(req) && Parse(Bag(req)).Err? ==> o == Outcome([], CatchAll(Parse(Bag(req)).fault))
    ensures "action" in Bag(req) && Parse(Bag(req)).Ok? ==> o == Dispatch(Parse(Bag(req)).value, env)
  {
    var args := Bag(req);
    if "action" !in args then Outcome([], ActionRequiredText)
    else match Parse(args)
      case Err(f) => Outcome([], CatchAll(f))
      case Ok(p) => Dispatch(p, env)
  }

  /** A null context, null Params, or null arguments are answered with the action-required error. */
  lemma NoContextNeedsAction(env: Env)
    ensures Invoke(NullContext, env) == Outcome([], ActionRequiredText)
    ensures Invoke(NullParams, env) == Outcome([], ActionRequiredText)
    ensures Invoke(NullArguments, env) == Outcome([], ActionRequiredText)
  {
  }

  /** Actions that differ only in letter case parse alike. */
  lemma ParseIgnoresActionCase(args: map<string, Arg>, a: string, b: string)
    requires EqualsIgnoreCase(a, b)
    ensures Parse(args["action" := Str(a)]) == Parse(args["action" := Str(b)])
  {
    var argsA := args["action" := Str(a)];
    var argsB := args["action" := Str(b)];
    assert forall k :: k != "action" && k in argsA ==> k in argsB && argsA[k] == argsB[k];
  }

  /** Actions that differ only in letter case behave alike. */
  lemma ActionIgnoresCase(args: map<string, Arg>, a: string, b: string, env: Env)
    requires EqualsIgnoreCase(a, b)
    ensures Invoke(Arguments(args["action" := Str(a)]), env) == Invoke(Arguments(args["action" := Str(b)]), env)
  {
    ParseIgnoresActionCase(args, a, b);
    assert Bag(Arguments(args["action" := Str(a)])) == args["action" := Str(a)];
    assert Bag(Arguments(args["action" := Str(b)])) == args["action" := Str(b)];
  }
}
