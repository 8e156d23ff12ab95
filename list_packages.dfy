/**
 * android-list-packages: list the package names installed on a device,
 * optionally narrowed by a case-insensitive filter, at most 50 of them, with
 * a note counting the rest.
 */
module ListPackagesTool {
  import opened Base
  import opened Text
  import opened Listing
  import opened Args
  import opened Bridge

  /** How many package names the report shows at most. */
  const Cap: nat := 50

  const NoDevicesText := "Error: No Android devices found. Please connect a device and ensure USB debugging is enabled."

  function NoPackagesText(serial: string): string {
    "No packages found on device " + serial
  }

  function CatchAll(f: Fault): string {
    "Error listing packages: " + FaultMessage(f)
  }

  datatype Params = Params(serial: Option<string>, includeUninstalled: bool, filter: Option<string>)

  /** Reads deviceSerial, includeUninstalled and filter, all optional. */
  function Parse(args: map<string, Arg>): (r: Result<Params>)
    ensures r.Ok? ==> ("deviceSerial" in args <==> r.value.serial.Some?)
    ensures r.Ok? && "deviceSerial" in args ==> args["deviceSerial"] == Str(r.value.serial.value)
    ensures r.Ok? ==> ("filter" in args <==> r.value.filter.Some?)
    ensures r.Ok? && "filter" in args ==> args["filter"] == Str(r.value.filter.value)
    ensures r.Ok? ==> ("includeUninstalled" in args ==> args["includeUninstalled"] == Bool(r.value.includeUninstalled))
    ensures r.Ok? ==> ("includeUninstalled" !in args ==> !r.value.includeUninstalled)
    ensures args == map[] ==> r == Ok(Params(None, false, None))
  {
    var serial :- OptionalString(args, "deviceSerial");
    var includeUninstalled :- Flag(args, "includeUninstalled");
    var filter :- OptionalString(args, "filter");
    Ok(Params(serial, includeUninstalled, filter))
  }

  /** The "... and K more" note, present exactly when some names were not shown. */
  function MoreNote(remaining: nat): (t: string)
    ensures t == "" <==> remaining == 0
    ensures remaining > 0 ==> Contains(t, MoreCount(remaining))
  {
    if remaining == 0 then ""
    else
      ContainsPiece("\n\n", MoreCount(remaining), ". Use filter to narrow results.");
      "\n\n" + MoreCount(remaining) + ". Use filter to narrow results."
  }

  /** "... and K more packages", the part of the note that counts the names not shown. */
  function MoreCount(remaining: nat): string {
    "... and " + NatToString(remaining) + " more packages"
  }

  /** The report over the names that passed the filter. */
  function Report(serial: string, filter: Option<string>, names: seq<string>): string {
    var page := Paginate(names, Cap);
    Shown(serial, filter, page) + MoreNote(page.remaining)
  }

  /** The report up to the note: the counts, the filter and the names shown. */
  function Shown(serial: string, filter: Option<string>, page: Page<string>): string {
    "Found " + NatToString(page.total) + " package(s) on device " + serial + FilterNote(filter)
      + ":\n\nShowing " + NatToString(|page.shown|) + " packages:\n" + Join(page.shown, "\n")
  }

  /** A report over more than 50 names counts the ones beyond the first 50. */
  lemma ReportCountsTheRest(serial: string, filter: Option<string>, names: seq<string>)
    requires |names| > Cap
    ensures Contains(Report(serial, filter, names), MoreCount(|names| - Cap))
  {
    var page := Paginate(names, Cap);
    assert page.remaining == |names| - Cap;
    ContainsAfter(Shown(serial, filter, page), MoreNote(|names| - Cap), MoreCount(|names| - Cap));
  }

  /** The device the packages are listed for: the given serial unchecked, else the first enumerated one. */
  function ChosenSerial(p: Params, env: Env): string
    requires !IsNullOrEmpty(p.serial) || env.devices != []
  {
    if IsNullOrEmpty(p.serial) then env.devices[0].serial else p.serial.value
  }

  function Run(p: Params, env: Env): (o: Outcome)
    // With no serial and no device, nothing is queried.
    ensures IsNullOrEmpty(p.serial) && env.devices == [] ==> o == Outcome([EnumerateDevices], NoDevicesText)
    // With no serial, devices are enumerated and the first one's serial is queried.
    ensures IsNullOrEmpty(p.serial) && env.devices != [] ==>
      o.commands == [EnumerateDevices, QueryPackages(env.devices[0].serial, p.includeUninstalled)]
    // A given serial is queried directly, without enumerating devices.
    ensures !IsNullOrEmpty(p.serial) ==> o.commands == [QueryPackages(p.serial.value, p.includeUninstalled)]
    ensures !IsNullOrEmpty(p.serial) || env.devices != [] ==>
      var s := ChosenSerial(p, env);
      (PackagesOn(env, s) == [] ==> o.text == NoPackagesText(s))
      && (PackagesOn(env, s) != [] ==> o.text == Report(s, p.filter, Matching(PackagesOn(env, s), p.filter)))
  {
    if IsNullOrEmpty(p.serial) && env.devices == [] then Outcome([EnumerateDevices], NoDevicesText)
    else
      var s := ChosenSerial(p, env);
      var lookups := if IsNullOrEmpty(p.serial) then [EnumerateDevices] else [];
      var commands := lookups + [QueryPackages(s, p.includeUninstalled)];
      var packages := PackagesOn(env, s);
      if packages == [] then Outcome(commands, NoPackagesText(s))
      else Outcome(commands, Report(s, p.filter, Matching(packages, p.filter)))
  }

  /** The whole tool: a bad argument kind is caught and reported, never thrown. */
  function Invoke(req: Request, env: Env): (o: Outcome)
    ensures Parse(Bag(req)).Err? ==> o == Outcome([], CatchAll(Parse(Bag(req)).fault))
    ensures Parse(Bag(req)).Ok? ==> o == Run(Parse(Bag(req)).value, env)
  {
    match Parse(Bag(req))
    case Err(f) => Outcome([], CatchAll(f))
    case Ok(p) => Run(p, env)
  }

  /**
   * A non-empty filter that matches no installed package still yields a
   * report, "Found 0 package(s)" and "Showing 0 packages", not the
   * no-packages text.
   */
  lemma FilterMatchingNothing(p: Params, env: Env)
    requires !IsNullOrEmpty(p.filter)
    requires !IsNullOrEmpty(p.serial) || env.devices != []
    requires PackagesOn(env, ChosenSerial(p, env)) != []
    requires forall n :: n in PackagesOn(env, ChosenSerial(p, env)) ==> !ContainsIgnoreCase(n, p.filter.value)
    ensures Run(p, env).text
      == "Found 0 package(s) on device " + ChosenSerial(p, env) + FilterNote(p.filter) + ":\n\nShowing 0 packages:\n"
  {
    var s := ChosenSerial(p, env);
    var kept := Matching(PackagesOn(env, s), p.filter);
    assert kept == [];
    assert Run(p, env).text == Report(s, p.filter, []);
    EmptyReport(s, p.filter);
  }

  /** The report over no names: zero found, zero shown, no note. */
  lemma EmptyReport(serial: string, filter: Option<string>)
    ensures Report(serial, filter, []) == "Found 0 package(s) on device " + serial + FilterNote(filter) + ":\n\nShowing 0 packages:\n"
  {
    var none: seq<string> := [];
    var zero := NatToString(0);
    assert Paginate(none, Cap) == Page(0, [], 0);
    var head := "Found " + zero + " package(s) on device " + serial + FilterNote(filter);
    assert Report(serial, filter, none) == head + ":\n\nShowing " + zero + " packages:\n" + Join([], "\n") + MoreNote(0);
    assert Join([], "\n") + MoreNote(0) == "";
    AppendThree(head, ":\n\nShowing ", zero, " packages:\n");
    ZeroTexts();
  }

  lemma ZeroTexts()
    ensures "Found " + NatToString(0) + " package(s) on device " == "Found 0 package(s) on device "
    ensures ":\n\nShowing " + NatToString(0) + " packages:\n" == ":\n\nShowing 0 packages:\n"
  {
    assert NatToString(0) == "0";
  }
}
