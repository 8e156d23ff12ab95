/**
 * What the tools see of the outside world. The device bridge (adb), the AVD
 * manager, the file system and child processes are not modelled as code: a
 * tool reads their answers from an Env snapshot, and reports the requests it
 * makes of them as a list of Commands, in the order it issues them.
 */
module Bridge {
  import opened Base
  import opened Text

  /** A connected device as the libraries report it (serial, connection state, model, product, emulator flag). */
  datatype Device = Device(serial: string, state: string, model: Option<string>, product: string, isEmulator: bool)

  /** Model ?? "Unknown Model" */
  function ModelName(d: Device): (name: string)
    ensures d.model.Some? ==> name == d.model.value
    ensures d.model.None? ==> name == "Unknown Model"
  {
    if d.model.Some? then d.model.value else "Unknown Model"
  }

  /** A configured Android Virtual Device; absent descriptive fields read as "". */
  datatype Avd = Avd(name: string, target: string, device: string, basedOn: string)

  /** A local file: its length, its file name, and its length as the N0 format prints it. */
  datatype LocalFile = LocalFile(length: nat, fileName: string, lengthGrouped: string)

  /** How a child process ended: with an exit code and its captured output, or without starting at all. */
  datatype ProcessRun = Exited(exitCode: int, stdout: string, stderr: string) | FailedToStart(message: string)

  /** A request a tool makes of the outside world. */
  datatype Command =
    | EnumerateDevices
    | StartAdbServer(path: string)
    | QueryPackages(serial: string, includeUninstalled: bool)
    | EnumerateAvds
    | Shell(serial: string, command: string)
    | RunProcess(fileName: string, arguments: string, stdin: seq<string>)

  /**
   * The answers the outside world gives during one tool invocation:
   * the devices adb enumerates, the AVDs the manager lists, the package
   * names the one package query returns for a serial (no entry: the query
   * returned null), the output lines of
   * each shell command on each serial, the way the one child process ends,
   * and the local files before and after that process.
   */
  datatype Env = Env(
    devices: seq<Device>,
    avds: seq<Avd>,
    packages: map<string, seq<string>>,
    shell: map<(string, string), seq<string>>,
    process: ProcessRun,
    filesBefore: map<string, LocalFile>,
    filesAfter: map<string, LocalFile>)

  /** The output lines of a shell command; a null or missing answer reads as no lines. */
  function ShellOutput(env: Env, serial: string, command: string): (lines: seq<string>)
    ensures (serial, command) in env.shell ==> lines == env.shell[(serial, command)]
    ensures (serial, command) !in env.shell ==> lines == []
  {
    if (serial, command) in env.shell then env.shell[(serial, command)] else []
  }

  /** The package names the package query returns for a serial; null reads as none. */
  function PackagesOn(env: Env, serial: string): (names: seq<string>)
    ensures serial in env.packages ==> names == env.packages[serial]
    ensures serial !in env.packages ==> names == []
  {
    if serial in env.packages then env.packages[serial] else []
  }

  /** What the installed-package check finds: the query returned null, or the package is absent or present. */
  datatype Presence = QueryFailed | Absent | Present

  /** Whether the package query for a serial lists the package, by exact, case-sensitive name. */
  function PackagePresence(env: Env, serial: string, package: string): (r: Presence)
    ensures r == QueryFailed <==> serial !in env.packages
    ensures r == Present <==> serial in env.packages && package in env.packages[serial]
  {
    if serial !in env.packages then QueryFailed
    else if package in env.packages[serial] then Present
    else Absent
  }

  /** Some configured AVD has this name, ignoring letter case. */
  predicate KnownAvd(avds: seq<Avd>, name: string) {
    exists i :: 0 <= i < |avds| && EqualsIgnoreCase(avds[i].name, name)
  }

  /** Whether a name is taken does not depend on the letter case it is written in. */
  lemma KnownAvdIgnoresCase(avds: seq<Avd>, a: string, b: string)
    requires EqualsIgnoreCase(a, b)
    ensures KnownAvd(avds, a) <==> KnownAvd(avds, b)
  {
    if KnownAvd(avds, a) {
      var i :| 0 <= i < |avds| && EqualsIgnoreCase(avds[i].name, a);
      assert EqualsIgnoreCase(avds[i].name, b);
    }
    if KnownAvd(avds, b) {
      var i :| 0 <= i < |avds| && EqualsIgnoreCase(avds[i].name, b);
      assert EqualsIgnoreCase(avds[i].name, a);
    }
  }

  /** What a tool hands back: the requests it made, in order, and its one text content. */
  datatype Outcome = Outcome(commands: seq<Command>, text: string)
}
