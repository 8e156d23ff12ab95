# MobileDevMcp tools, modelled in Dafny

MobileDevMcp is an MCP server whose tools let a client drive Android
development from a conversation. The tools list devices, AVDs and packages,
read logcat, start, stop and create emulators, install, launch and uninstall
apps, copy files, and run the SDK manager. Each tool is one `InvokeAsync`.
The method reads a JSON argument bag, picks a device, AVD or package, issues
commands to adb, the AVD manager or a child process, and answers with exactly
one text block. Failures come back as text too; nothing is thrown to the
caller.

This project models the decision logic of the fifteen tools. The outside
world is an `Env` snapshot (module `Bridge`). It holds:

- the enumerated devices and the configured AVDs;
- the answer of the package query per serial (no entry: the query returned null);
- the output lines of each shell command per serial;
- how the one child process ended (exit code, stdout, stderr, or failure to start);
- the local files before and after that process.

A tool's result is an `Outcome`: the commands it issued, in order, and its
text. Argument reads of the wrong JSON kind become a `Fault`, which each tool
turns into its own catch-all text, as its `catch` block does.

Modules:

- `Base`: `Option`, `Min`, `Max`.
- `Text`: the .NET string operations the tools use, with lemmas. These are
  ordinal `Contains`, `OrdinalIgnoreCase` containment, `Trim`, `string.Join`,
  `Split`, and `Int32.ToString`.
- `Args`: the argument bag and its typed reads.
- `Bridge`: the environment snapshot, commands and outcomes.
- `Targeting`: the three device-selection rules, written once.
- `Listing`: filtering, the display cap, numbered listings.
- One module per tool:
  - `ListPackagesTool`, `LogcatTool`, `SdkManagerTool`;
  - `StopAvdTool`, `StartAvdTool`, `CreateAvdTool`, `ListAvdsTool`;
  - `UninstallAppTool`, `LaunchAppTool`, `InstallApkTool`;
  - `PullFileTool`, `PushFileTool`;
  - `ShellTool`, `DevicesTool`, `DevicesListTool`.

Most tools are pure and are modelled as functions. The exceptions follow
the source:

- The devices-list tool appends lines to a `StringBuilder` in a loop. It is
  a `LineBuilder` class and a method with a `while` loop, proved against the
  `ReportLines` specification.
- The start-AVD tool builds its argument and option lists by `Add`. Those
  steps, and the tool itself, are methods.

## Model

| member | source | states |
|---|---|---|
| Base.Min | src/MobileDevMcp.Server/AndroidListPackagesTool.cs:116 | Math.Min: a lower bound of both arguments that equals one of them |
| Args.Bag | src/MobileDevMcp.Server/AndroidLogcatTool.cs:51 | a missing context, Params or argument map reads as the empty bag; otherwise the bag is the request's map |
| Args.OptionalString | src/MobileDevMcp.Server/AndroidLogcatTool.cs:53 | an absent key gives null; a string gives its value; any other kind is a fault naming the key |
| Args.StringOr | src/MobileDevMcp.Server/AndroidCreateAvdTool.cs:66 | an absent key gives the fallback; a string value is taken as is; any other kind is a fault |
| Args.RequiredString | src/MobileDevMcp.Server/AndroidUninstallAppTool.cs:52 | succeeds exactly when the present value is a string, and returns it |
| Args.Flag | src/MobileDevMcp.Server/AndroidLogcatTool.cs:59 | an absent key is false; a boolean value is read as is; any other kind is a fault |
| Args.Int32 | src/MobileDevMcp.Server/AndroidLogcatTool.cs:57 | GetInt32: succeeds exactly for an integer in the signed 32-bit range, and returns it |
| Bridge.ModelName | src/MobileDevMcp.Server/AndroidDevicesListTool.cs:45 | Model ?? "Unknown Model" |
| Bridge.ShellOutput | src/MobileDevMcp.Server/AndroidStopAvdTool.cs:72-75 | a shell command's output lines; a null answer reads as no lines |
| Bridge.PackagesOn | src/MobileDevMcp.Server/AndroidListPackagesTool.cs:87-93 | the package query's names for a serial; null reads as none |
| Bridge.PackagePresence | src/MobileDevMcp.Server/AndroidUninstallAppTool.cs:84-90 | the query failed exactly when it returned null; the package is present exactly when the query lists its name, case-sensitively |
| Bridge.KnownAvd | src/MobileDevMcp.Server/AndroidCreateAvdTool.cs:73 | a name is taken when some AVD's name equals it ignoring case; the start tool uses the same test (AndroidStartAvdTool.cs:60) |
| Bridge.KnownAvdIgnoresCase | src/MobileDevMcp.Server/AndroidCreateAvdTool.cs:73 | whether an AVD name is taken does not depend on the letter case it is written in |
| Text.Lower | src/MobileDevMcp.Server/AndroidSdkManagerTool.cs:61 | ToLowerInvariant keeps the length and lowers each character |
| Text.Contains | src/MobileDevMcp.Server/AndroidUninstallAppTool.cs:108 | ordinal Contains: the word is a prefix of the text or of one of its suffixes |
| Text.ContainsIgnoreCase | src/MobileDevMcp.Server/AndroidLogcatTool.cs:118 | Contains with OrdinalIgnoreCase: the lower-cased filter occurs in the lower-cased text |
| Text.ContainsIgnoreCaseIgnoresCase | src/MobileDevMcp.Server/AndroidLogcatTool.cs:118 | the ignore-case substring test gives the same answer for texts and filters differing only in case |
| Text.ContainsIgnoreCaseIsFoldedOccurrence | src/MobileDevMcp.Server/AndroidLogcatTool.cs:118 | the ignore-case test holds exactly when the filter, lower-cased, occurs in the lower-cased text |
| Text.ContainsImpliesContainsIgnoreCase | src/MobileDevMcp.Server/AndroidListPackagesTool.cs:111 | an exact occurrence is also an ignore-case occurrence |
| Text.ContainsIsOccurrence | src/MobileDevMcp.Server/AndroidUninstallAppTool.cs:108 | ordinal Contains holds exactly when the word occurs at some position |
| Text.IsWhiteSpace | src/MobileDevMcp.Server/AndroidLogcatTool.cs:103 | char.IsWhiteSpace: space, U+0009 to U+000D, U+0085, U+00A0, U+1680, U+2000 to U+200A, U+2028, U+2029, U+202F, U+205F and U+3000 |
| Text.IsBlank | src/MobileDevMcp.Server/AndroidSdkManagerTool.cs:136 | IsNullOrWhiteSpace of a non-null string: every character is white space, so the empty string is blank |
| Text.TrimStart | src/MobileDevMcp.Server/AndroidPullFileTool.cs:90 | the result is a suffix of the input that does not start with white space, and what was cut is all white space |
| Text.TrimEnd | src/MobileDevMcp.Server/AndroidPullFileTool.cs:90 | the result is a prefix of the input that does not end with white space, and what was cut is all white space |
| Text.Trim | src/MobileDevMcp.Server/AndroidPullFileTool.cs:90 | Trim(): TrimEnd of TrimStart, so white space is cut from both ends and nowhere else |
| Text.TrimKeepsWord | src/MobileDevMcp.Server/AndroidPullFileTool.cs:90-93 | a word that begins and ends with non-white-space occurs in the trimmed text exactly when it occurs in the text |
| Text.Join | src/MobileDevMcp.Server/AndroidDevicesTool.cs:51 | string.Join: "" for no parts, the part itself for one, otherwise the parts with the separator between consecutive ones only |
| Text.Split | src/MobileDevMcp.Server/AndroidLogcatTool.cs:117 | Split(c) yields at least one piece, and no piece holds the separator |
| Text.SplitJoin | src/MobileDevMcp.Server/AndroidLogcatTool.cs:99-132 | splitting what Join built from separator-free pieces gives the pieces back |
| Text.Unlines | src/MobileDevMcp.Server/AndroidDevicesListTool.cs:35-56 | the StringBuilder text after AppendLine of each line in turn: every line followed by "\n" |
| Text.UnlinesSnoc | src/MobileDevMcp.Server/AndroidDevicesListTool.cs:45 | one more AppendLine adds exactly that line and a line end |
| Text.SplitUnlines | src/MobileDevMcp.Server/AndroidDevicesListTool.cs:35-47 | text built line by line splits into those lines and one final empty piece |
| Text.NatToString | src/MobileDevMcp.Server/AndroidDevicesTool.cs:69 | the decimal text of a count is non-empty and all digits, with no leading zero except for 0 itself |
| Text.NatToStringRoundTrip | src/MobileDevMcp.Server/AndroidDevicesTool.cs:69 | reading the printed digits back gives the count |
| Text.NatToStringInjective | src/MobileDevMcp.Server/AndroidDevicesTool.cs:53 | different entry numbers print differently |
| Text.NoNewlineInDigits | src/MobileDevMcp.Server/AndroidDevicesTool.cs:53 | a printed number never breaks a line |
| Text.IntToString | src/MobileDevMcp.Server/AndroidLogcatTool.cs:149 | an Int32 interpolated: the digits of its magnitude, after "-" exactly when it is negative |
| Targeting.FirstIndex | src/MobileDevMcp.Server/AndroidLogcatTool.cs:74 | FirstOrDefault: none exactly when no entry passes; otherwise the first entry that passes |
| Targeting.FirstWhere | src/MobileDevMcp.Server/AndroidLogcatTool.cs:74 | the first device that passes the test, with every earlier device failing it; null exactly when none passes |
| Targeting.ResolveDevice | src/MobileDevMcp.Server/AndroidLogcatTool.cs:64-82 | no devices exactly when the list is empty; a null or empty serial takes the first device; otherwise the first exact serial match, and no match exactly when no device carries the serial |
| Targeting.SerialFindsItsDevice | src/MobileDevMcp.Server/AndroidLogcatTool.cs:72-74 | with distinct serials, a given serial picks exactly the device that carries it |
| Targeting.ResolveEmulator | src/MobileDevMcp.Server/AndroidStopAvdTool.cs:46-68 | only emulators are picked, the first one stoppable (carrying the serial when one is given); no match exactly when none is stoppable |
| Targeting.Stoppable | src/MobileDevMcp.Server/AndroidStopAvdTool.cs:55-57 | the stop tool's test: an emulator, which must also carry the serial when a non-empty one is given |
| Targeting.EmulatorRuleRefinesDeviceRule | src/MobileDevMcp.Server/AndroidStopAvdTool.cs:55-57 | with distinct serials, the emulator rule agrees with the common rule on emulators and rejects a physical device's serial |
| Targeting.StringSerial | src/MobileDevMcp.Server/AndroidInstallApkTool.cs:79-83 | the serial is honoured exactly when it is a JSON string |
| Listing.Filter | src/MobileDevMcp.Server/AndroidListPackagesTool.cs:111 | Where: the kept entries are exactly those that pass, no more than before |
| Listing.FilterAppend | src/MobileDevMcp.Server/AndroidListPackagesTool.cs:111 | filtering preserves order: it distributes over concatenation |
| Listing.FilterEmptyIff | src/MobileDevMcp.Server/AndroidLogcatTool.cs:121 | nothing survives exactly when no entry passes |
| Listing.FilterKeepsAll | src/MobileDevMcp.Server/AndroidListPackagesTool.cs:111 | a list whose entries all pass is unchanged |
| Listing.KeepContaining | src/MobileDevMcp.Server/AndroidLogcatTool.cs:117-119 | keeps exactly the entries containing the filter ignoring case; empty exactly when none does |
| Listing.KeepContainingAppend | src/MobileDevMcp.Server/AndroidLogcatTool.cs:117-119 | the kept entries keep their order |
| Listing.KeepContainingSingle | src/MobileDevMcp.Server/AndroidLogcatTool.cs:118 | a single entry is kept exactly when it contains the filter |
| Listing.KeepContainingEmptyFilter | src/MobileDevMcp.Server/AndroidLogcatTool.cs:117-119 | the empty filter keeps everything |
| Listing.Matching | src/MobileDevMcp.Server/AndroidListPackagesTool.cs:108-112 | a null or empty filter keeps the whole list; otherwise the result is KeepContaining's: exactly the entries containing the filter ignoring case, in their order |
| Listing.MatchingAppend | src/MobileDevMcp.Server/AndroidListPackagesTool.cs:108-112 | the shown entries keep the original order: matching a concatenation matches each part |
| Listing.MatchingSingle | src/MobileDevMcp.Server/AndroidListPackagesTool.cs:108-112 | one entry is shown exactly when the filter is null or empty or the entry contains it |
| Listing.FilterNote | src/MobileDevMcp.Server/AndroidListPackagesTool.cs:119-122 | the "(filtered by 'F')" note is present exactly when the filter is non-empty, and then names it |
| Listing.Paginate | src/MobileDevMcp.Server/AndroidListPackagesTool.cs:114-116 | shows the first min(cap, total) entries; the remainder is positive exactly when total exceeds the cap, and is then total minus the cap |
| Listing.Numbered | src/MobileDevMcp.Server/AndroidDevicesTool.cs:51-53 | one line per entry, in order, numbered from 1 |
| Listing.NumberedReadsBack | src/MobileDevMcp.Server/AndroidDevicesTool.cs:51-61 | the newline-joined listing splits back into one line per entry, each starting with its number |
| ListPackagesTool.Parse | src/MobileDevMcp.Server/AndroidListPackagesTool.cs:43-56 | serial and filter are null exactly when absent; includeUninstalled defaults to false; the empty bag parses to all defaults |
| ListPackagesTool.ChosenSerial | src/MobileDevMcp.Server/AndroidListPackagesTool.cs:61-84 | a null or empty serial becomes the first enumerated device's serial; a given serial is used without checking it against the devices |
| ListPackagesTool.MoreNote | src/MobileDevMcp.Server/AndroidListPackagesTool.cs:125-128 | the note is present exactly when some names were not shown, and then contains "... and K more packages" for the K it is given |
| ListPackagesTool.MoreCount | src/MobileDevMcp.Server/AndroidListPackagesTool.cs:127 | "... and K more packages" |
| ListPackagesTool.Shown | src/MobileDevMcp.Server/AndroidListPackagesTool.cs:114-123 | "Found T package(s) on device S", the filter note, ":\n\nShowing M packages:\n", then the first M names joined by "\n", with M = min(50, T) |
| ListPackagesTool.Report | src/MobileDevMcp.Server/AndroidListPackagesTool.cs:114-128 | the shown part over the names paginated at 50, followed by the note for the names beyond 50 |
| ListPackagesTool.ReportCountsTheRest | src/MobileDevMcp.Server/AndroidListPackagesTool.cs:114-128 | a report over more than 50 names contains "... and K more packages" with K the number of names beyond the first 50 |
| ListPackagesTool.Run | src/MobileDevMcp.Server/AndroidListPackagesTool.cs:58-128 | without a serial, devices are enumerated and an empty list is an error with no package query; a given serial is queried unchecked; an empty result is the no-packages text; otherwise the report over the matching names |
| ListPackagesTool.Invoke | src/MobileDevMcp.Server/AndroidListPackagesTool.cs:40-156 | a wrong-kind argument is caught and reported before anything is issued; otherwise the tool runs |
| ListPackagesTool.FilterMatchingNothing | src/MobileDevMcp.Server/AndroidListPackagesTool.cs:108-123 | a filter matching no package still yields "Found 0 package(s)" and "Showing 0 packages", not the no-packages text |
| ListPackagesTool.EmptyReport | src/MobileDevMcp.Server/AndroidListPackagesTool.cs:114-128 | the report over no names has zero counts and no remainder note |
| LogcatTool.LineCount | src/MobileDevMcp.Server/AndroidLogcatTool.cs:56-58 | the requested count capped at 1000, or 100 when none is requested |
| LogcatTool.Parse | src/MobileDevMcp.Server/AndroidLogcatTool.cs:51-59 | level defaults to "I", lines per LineCount, clear is true only for a true flag; the empty bag parses to the defaults |
| LogcatTool.LogcatCommand | src/MobileDevMcp.Server/AndroidLogcatTool.cs:91-95 | "logcat -d -t N", with " *:LEVEL" exactly when the level is non-empty |
| LogcatTool.ClearedNote | src/MobileDevMcp.Server/AndroidLogcatTool.cs:148 | the note is " (logs cleared)" when the log was cleared, and empty otherwise |
| LogcatTool.Summary | src/MobileDevMcp.Server/AndroidLogcatTool.cs:146-149 | "Logcat from device S", then the filter note, then the cleared note, then " (level: L, lines: N)", in that order |
| LogcatTool.TargetCommands | src/MobileDevMcp.Server/AndroidLogcatTool.cs:85-98 | "logcat -c" is issued before the dump exactly when clearing; the dump is always last |
| LogcatTool.Render | src/MobileDevMcp.Server/AndroidLogcatTool.cs:99-157 | blank output gives the no-entries text; with a filter, no matching line gives the no-match text naming filter and serial; otherwise the summary and the (filtered) lines |
| LogcatTool.Run | src/MobileDevMcp.Server/AndroidLogcatTool.cs:61-157 | the common device rule with its texts, then the clear and dump commands on the target and the rendered output |
| LogcatTool.Invoke | src/MobileDevMcp.Server/AndroidLogcatTool.cs:49-167 | a wrong-kind argument is caught and reported before anything is issued; otherwise the tool runs |
| LogcatTool.FilterSeesShellLines | src/MobileDevMcp.Server/AndroidLogcatTool.cs:99-132 | the filter is applied to exactly the lines the device printed, and shows those containing it in order |
| SdkManagerTool.LicenseAnswers | src/MobileDevMcp.Server/AndroidSdkManagerTool.cs:195-198 | exactly ten lines, each "y" |
| SdkManagerTool.Parse | src/MobileDevMcp.Server/AndroidSdkManagerTool.cs:61-65 | the action is the lower-cased string; package and filter are null exactly when absent; the flags are true only for true |
| SdkManagerTool.ListArguments | src/MobileDevMcp.Server/AndroidSdkManagerTool.cs:118 | "--list --include_obsolete" exactly when obsolete packages are included, else "--list" |
| SdkManagerTool.ListedLines | src/MobileDevMcp.Server/AndroidSdkManagerTool.cs:136-141 | exactly the non-blank output lines that match the filter, none spanning lines |
| SdkManagerTool.KeptLines | src/MobileDevMcp.Server/AndroidSdkManagerTool.cs:136-141 | of the output lines, the non-blank ones, narrowed to those containing the filter when one is given |
| SdkManagerTool.KeptLinesAppend | src/MobileDevMcp.Server/AndroidSdkManagerTool.cs:136-141 | the kept lines keep the output's order: keeping over a concatenation keeps each part |
| SdkManagerTool.KeptLinesSingle | src/MobileDevMcp.Server/AndroidSdkManagerTool.cs:136-141 | one line is kept exactly when it is not blank and the filter is null, empty or contained in it |
| SdkManagerTool.ListedLinesOfOutput | src/MobileDevMcp.Server/AndroidSdkManagerTool.cs:136-141 | for output made of lines joined by "\n", the listed lines are the kept ones of those lines, in order |
| SdkManagerTool.ListText | src/MobileDevMcp.Server/AndroidSdkManagerTool.cs:112-171 | a start failure or non-zero exit is reported with its message; no lines gives "No SDK packages found" (naming a non-empty filter); otherwise the first 50 lines |
| SdkManagerTool.ListShowsFirstLines | src/MobileDevMcp.Server/AndroidSdkManagerTool.cs:155-161 | the shown listing splits back into the first min(50, n) listed lines |
| SdkManagerTool.InstallCommand | src/MobileDevMcp.Server/AndroidSdkManagerTool.cs:179-199 | sdkmanager with "\"pkg\"" and ten "y" answers when accepting licenses, else "--no-https \"pkg\"" and no input |
| SdkManagerTool.InstallText | src/MobileDevMcp.Server/AndroidSdkManagerTool.cs:206-232 | success exactly on exit code 0; otherwise stderr, or the start failure, is reported |
| SdkManagerTool.UpdateCommand | src/MobileDevMcp.Server/AndroidSdkManagerTool.cs:241-261 | sdkmanager "--update", with ten "y" answers exactly when accepting licenses |
| SdkManagerTool.UpdateText | src/MobileDevMcp.Server/AndroidSdkManagerTool.cs:268-294 | success exactly on exit code 0; otherwise stderr, or the start failure, is reported |
| SdkManagerTool.Dispatch | src/MobileDevMcp.Server/AndroidSdkManagerTool.cs:69-97 | list, install (package required, nothing run without it), update, uninstall (fixed text, nothing run), and the unknown-action text naming the lower-cased action |
| SdkManagerTool.Invoke | src/MobileDevMcp.Server/AndroidSdkManagerTool.cs:49-108 | a missing action is reported first; a wrong-kind argument is caught; otherwise the action is dispatched |
| SdkManagerTool.NoContextNeedsAction | src/MobileDevMcp.Server/AndroidSdkManagerTool.cs:51-59 | a null context, null Params or null arguments get the action-required error |
| SdkManagerTool.ParseIgnoresActionCase | src/MobileDevMcp.Server/AndroidSdkManagerTool.cs:61-65 | actions differing only in letter case parse to the same parameters |
| SdkManagerTool.ActionIgnoresCase | src/MobileDevMcp.Server/AndroidSdkManagerTool.cs:61-69 | actions differing only in letter case give the same outcome |
| StopAvdTool.Parse | src/MobileDevMcp.Server/AndroidStopAvdTool.cs:40-41 | serial is null exactly when absent; force is true only for true |
| StopAvdTool.Run | src/MobileDevMcp.Server/AndroidStopAvdTool.cs:43-85 | no devices, no running emulator, or no emulator with the serial each have their own text; otherwise "reboot -p" is sent to the chosen emulator and success reported |
| StopAvdTool.Invoke | src/MobileDevMcp.Server/AndroidStopAvdTool.cs:36-95 | a wrong-kind argument is caught and reported before anything is issued; otherwise the tool runs |
| StopAvdTool.OnlyEmulatorsStopped | src/MobileDevMcp.Server/AndroidStopAvdTool.cs:55-72 | the stop command only ever goes to an enumerated emulator |
| StopAvdTool.ForceIgnored | src/MobileDevMcp.Server/AndroidStopAvdTool.cs:41 | the force flag changes nothing |
| StopAvdTool.ReplyIgnored | src/MobileDevMcp.Server/AndroidStopAvdTool.cs:72-85 | success is reported whatever the device prints |
| UninstallAppTool.Parse | src/MobileDevMcp.Server/AndroidUninstallAppTool.cs:52-54 | packageName is the present string; serial null exactly when absent; keepData true only for true |
| UninstallAppTool.UninstallCommand | src/MobileDevMcp.Server/AndroidUninstallAppTool.cs:102 | "pm uninstall -k P" exactly when data is kept, else "pm uninstall P" |
| UninstallAppTool.ReplyText | src/MobileDevMcp.Server/AndroidUninstallAppTool.cs:104-128 | success, with "(data preserved)" or "(data removed)", exactly when the reply contains "Success"; otherwise the reply is embedded |
| UninstallAppTool.Run | src/MobileDevMcp.Server/AndroidUninstallAppTool.cs:56-128 | the common device rule; then the package query; a package not listed is reported and nothing is uninstalled |
| UninstallAppTool.Invoke | src/MobileDevMcp.Server/AndroidUninstallAppTool.cs:40-138 | a missing packageName is reported first; a wrong-kind argument is caught; otherwise the tool runs |
| UninstallAppTool.UninstallOnlyInstalled | src/MobileDevMcp.Server/AndroidUninstallAppTool.cs:84-103 | a shell command is sent only to the chosen device, only when the query lists the package, and it is the uninstall command |
| UninstallAppTool.EmptyReplyFails | src/MobileDevMcp.Server/AndroidUninstallAppTool.cs:104-128 | an empty reply counts as a failure |
| LaunchAppTool.Parse | src/MobileDevMcp.Server/AndroidLaunchAppTool.cs:52-54 | packageName is the present string; activity and serial are null exactly when absent |
| LaunchAppTool.LaunchCommand | src/MobileDevMcp.Server/AndroidLaunchAppTool.cs:102-104 | monkey with the launcher category without an activity, "am start -n P/A" with one |
| LaunchAppTool.LaunchTarget | src/MobileDevMcp.Server/AndroidLaunchAppTool.cs:116 | the package, or package/activity when an activity is given |
| LaunchAppTool.Launched | src/MobileDevMcp.Server/AndroidLaunchAppTool.cs:112-114 | the reply contains "Events injected" or "Starting:", or is empty |
| LaunchAppTool.ReplyText | src/MobileDevMcp.Server/AndroidLaunchAppTool.cs:107-133 | success exactly when the reply is empty or mentions "Events injected" or "Starting:"; otherwise the reply is embedded |
| LaunchAppTool.Run | src/MobileDevMcp.Server/AndroidLaunchAppTool.cs:56-133 | the common device rule; then the package query; a package not listed is reported and nothing is launched |
| LaunchAppTool.Invoke | src/MobileDevMcp.Server/AndroidLaunchAppTool.cs:40-144 | a missing packageName is reported first; a wrong-kind argument is caught; otherwise the tool runs |
| LaunchAppTool.NoContextNeedsPackage | src/MobileDevMcp.Server/AndroidLaunchAppTool.cs:42-50 | a null context gets the package-required error |
| LaunchAppTool.SilentOrMarkedReplyLaunches | src/MobileDevMcp.Server/AndroidLaunchAppTool.cs:112-114 | an empty reply, or any reply containing a marker, counts as launched |
| PullFileTool.Parse | src/MobileDevMcp.Server/AndroidPullFileTool.cs:60-62 | both paths are the present strings; serial null exactly when absent |
| PullFileTool.ProbeCommand | src/MobileDevMcp.Server/AndroidPullFileTool.cs:88 | "test -f R && echo 'exists' || echo 'not found'" |
| PullFileTool.RemoteExists | src/MobileDevMcp.Server/AndroidPullFileTool.cs:89-93 | the probe's reply lines, joined without a separator and trimmed, contain "exists" |
| PullFileTool.RemoteExistsIgnoresTrim | src/MobileDevMcp.Server/AndroidPullFileTool.cs:89-93 | the probe's verdict is whether its raw concatenated reply mentions "exists" |
| PullFileTool.PullCommand | src/MobileDevMcp.Server/AndroidPullFileTool.cs:113 | an adb process with no input whose arguments start with "-s S pull ", end with "\"REMOTE\" \"LOCAL\"" and hold nothing else |
| PullFileTool.PullText | src/MobileDevMcp.Server/AndroidPullFileTool.cs:119-152 | success exactly on exit 0 with the local file present afterwards; otherwise stderr, or the start failure, is reported |
| PullFileTool.Run | src/MobileDevMcp.Server/AndroidPullFileTool.cs:64-152 | the common device rule; then the probe; a missing remote file is reported and nothing is pulled |
| PullFileTool.Invoke | src/MobileDevMcp.Server/AndroidPullFileTool.cs:40-164 | remotePath is required before localPath; a wrong-kind argument is caught; otherwise the tool runs |
| PullFileTool.ProcessOnlyOnTarget | src/MobileDevMcp.Server/AndroidPullFileTool.cs:64-117 | a process runs only once a device has been picked |
| PullFileTool.PullOnlyAfterProbe | src/MobileDevMcp.Server/AndroidPullFileTool.cs:88-117 | a process runs only after the probe on the chosen device mentions "exists", and it is the pull |
| PushFileTool.Parse | src/MobileDevMcp.Server/AndroidPushFileTool.cs:60-62 | both paths are the present strings; serial null exactly when absent |
| PushFileTool.PushCommand | src/MobileDevMcp.Server/AndroidPushFileTool.cs:105 | an adb process with no input whose arguments start with "-s S push ", end with "\"LOCAL\" \"REMOTE\"" and hold nothing else |
| PushFileTool.PushText | src/MobileDevMcp.Server/AndroidPushFileTool.cs:111-144 | success on exit 0 with the file's length; a file gone by then, a non-zero exit or a start failure are failures with their messages |
| PushFileTool.Run | src/MobileDevMcp.Server/AndroidPushFileTool.cs:64-144 | a missing local file is reported before any device is enumerated; then the common rule, the echo and the push |
| PushFileTool.Invoke | src/MobileDevMcp.Server/AndroidPushFileTool.cs:40-156 | localPath is required before remotePath; a wrong-kind argument is caught; otherwise the tool runs |
| PushFileTool.EchoReplyIgnored | src/MobileDevMcp.Server/AndroidPushFileTool.cs:98 | the reply to the echo never affects the outcome |
| CreateAvdTool.Parse | src/MobileDevMcp.Server/AndroidCreateAvdTool.cs:64-67 | name and package are the present strings; device defaults to "pixel"; force is true only for true |
| CreateAvdTool.CreateArguments | src/MobileDevMcp.Server/AndroidCreateAvdTool.cs:95-97 | "create avd -n N -k P -d D", with " --force" exactly when forced |
| CreateAvdTool.CreateText | src/MobileDevMcp.Server/AndroidCreateAvdTool.cs:103-136 | success exactly on exit 0, naming name, package and device; otherwise stderr, or the start failure, is reported |
| CreateAvdTool.Run | src/MobileDevMcp.Server/AndroidCreateAvdTool.cs:72-136 | a name already taken, ignoring case, and not forced is refused with no process run; otherwise avdmanager runs |
| CreateAvdTool.Invoke | src/MobileDevMcp.Server/AndroidCreateAvdTool.cs:46-147 | name is required before package; a wrong-kind argument is caught; otherwise the tool runs |
| CreateAvdTool.DuplicateDifferingInCase | src/MobileDevMcp.Server/AndroidCreateAvdTool.cs:73-82 | two unforced requests whose names differ only in case are refused alike, and an AVD carrying one spelling blocks the other |
| CreateAvdTool.ForceAlwaysRuns | src/MobileDevMcp.Server/AndroidCreateAvdTool.cs:73-101 | a forced creation always runs avdmanager |
| StartAvdTool.Parse | src/MobileDevMcp.Server/AndroidStartAvdTool.cs:52-54 | name is the present string; the flags are true only for true |
| StartAvdTool.EmulatorArguments | src/MobileDevMcp.Server/AndroidStartAvdTool.cs:74-80 | "@NAME", then "-no-window" exactly when headless, then "-wipe-data" exactly when wiping, space-separated |
| StartAvdTool.OptionsText | src/MobileDevMcp.Server/AndroidStartAvdTool.cs:87-91 | "headless mode" then "wiped data" for the flags set, comma-separated in parentheses; nothing when neither is set |
| StartAvdTool.Invoke | src/MobileDevMcp.Server/AndroidStartAvdTool.cs:42-120 | a missing name is reported first; an AVD not configured (ignoring case) starts nothing; otherwise the emulator is started and the start reported without waiting, or its start failure reported |
| InstallApkTool.PreparedText | src/MobileDevMcp.Server/AndroidInstallApkTool.cs:109-113 | the device and model, then the file name, grouped size and path on their own lines, then the note naming 'adb install PATH' |
| InstallApkTool.PreparedTextNamesCommand | src/MobileDevMcp.Server/AndroidInstallApkTool.cs:104-114 | the prepared reply names the device and the adb install command for the path |
| InstallApkTool.Run | src/MobileDevMcp.Server/AndroidInstallApkTool.cs:55-115 | a missing file is reported before adb is contacted; then the server start, enumeration and the string-serial rule with their own texts; otherwise the prepared text |
| InstallApkTool.Invoke | src/MobileDevMcp.Server/AndroidInstallApkTool.cs:34-123 | a null context or null Params ends in the catch-all (no null check at line 36), while null arguments or a missing key are required; a wrong kind is caught; an empty path is rejected; otherwise the tool runs |
| InstallApkTool.CommandsOnlyForExistingFile | src/MobileDevMcp.Server/AndroidInstallApkTool.cs:55-67 | adb is contacted only for a non-empty path naming an existing file |
| InstallApkTool.NonStringSerialIgnored | src/MobileDevMcp.Server/AndroidInstallApkTool.cs:79-80 | a serial of another JSON kind is ignored, as if absent |
| InstallApkTool.RunNotRequired | src/MobileDevMcp.Server/AndroidInstallApkTool.cs:55-115 | once a path has been read, the answer is never the required-parameter text |
| InstallApkTool.PresentPathNotRequired | src/MobileDevMcp.Server/AndroidInstallApkTool.cs:38-123 | once apkPath is present, no outcome is the required-parameter text |
| InstallApkTool.RequiredKeysMatchSchema | src/MobileDevMcp.Server/AndroidInstallApkTool.cs:27-44 | the schema's required set is exactly the set of keys whose absence is reported as required |
| ShellTool.ExecutedText | src/MobileDevMcp.Server/AndroidShellTool.cs:93-101 | "Shell command 'C' executed on device S (MODEL)", then the note pointing at adb |
| ShellTool.Run | src/MobileDevMcp.Server/AndroidShellTool.cs:55-101 | server start and enumeration; the string-serial rule with its own texts; otherwise the fixed "executed" text |
| ShellTool.Invoke | src/MobileDevMcp.Server/AndroidShellTool.cs:34-119 | a null context or null Params ends in the catch-all (no null check at line 36), while null arguments or a missing key are required; a wrong kind is caught; an empty command is rejected; otherwise the tool runs |
| ShellTool.CommandNeverSent | src/MobileDevMcp.Server/AndroidShellTool.cs:89-101 | no shell command ever reaches a device |
| ShellTool.ReplyIgnored | src/MobileDevMcp.Server/AndroidShellTool.cs:89-101 | what a device would print makes no difference |
| ShellTool.SerialPicksItsDevice | src/MobileDevMcp.Server/AndroidShellTool.cs:69-87 | with distinct serials, a given serial addresses exactly the device carrying it |
| ShellTool.RunNotRequired | src/MobileDevMcp.Server/AndroidShellTool.cs:55-101 | once a command has been read, the answer is never the required-parameter text |
| ShellTool.PresentCommandNotRequired | src/MobileDevMcp.Server/AndroidShellTool.cs:38-119 | once command is present, no outcome is the required-parameter text |
| ShellTool.RequiredKeysMatchSchema | src/MobileDevMcp.Server/AndroidShellTool.cs:27-44 | the schema's required set is exactly the set of keys whose absence is reported as required |
| DevicesTool.Describe | src/MobileDevMcp.Server/AndroidDevicesTool.cs:53-59 | "Serial: S", then ", Product: P" and ", Model: M" when those are non-empty, then " (Emulator)" for an emulator |
| DevicesTool.Invoke | src/MobileDevMcp.Server/AndroidDevicesTool.cs:28-71 | no devices gives the guidance text; otherwise the header with the device count and the numbered listing |
| DevicesTool.SingleLine | src/MobileDevMcp.Server/AndroidDevicesTool.cs:53-59 | a device whose fields are single lines is described on one line |
| DevicesTool.OneLinePerDevice | src/MobileDevMcp.Server/AndroidDevicesTool.cs:51-69 | after the header, one line per device in order, numbered from 1 |
| DevicesTool.EmulatorsMarked | src/MobileDevMcp.Server/AndroidDevicesTool.cs:58-59 | an emulator's line ends with "(Emulator)" |
| ListAvdsTool.Describe | src/MobileDevMcp.Server/AndroidListAvdsTool.cs:50-56 | "Name: N", then ", Target: T", ", Device: D" and ", Based on: B" for each that is non-empty |
| ListAvdsTool.Invoke | src/MobileDevMcp.Server/AndroidListAvdsTool.cs:28-68 | no AVDs gives the guidance text; otherwise the header with the count and the numbered listing |
| ListAvdsTool.SingleLine | src/MobileDevMcp.Server/AndroidListAvdsTool.cs:50-56 | an AVD whose fields are single lines is described on one line |
| ListAvdsTool.OneLinePerAvd | src/MobileDevMcp.Server/AndroidListAvdsTool.cs:48-66 | after the header, one line per AVD in order, numbered from 1 |
| ListAvdsTool.ListedAvdsAreKnown | src/MobileDevMcp.Server/AndroidStartAvdTool.cs:59-60 | every listed AVD is accepted by name by the start tool |
| DevicesListTool.LineBuilder.constructor | src/MobileDevMcp.Server/AndroidDevicesListTool.cs:34 | a new builder is empty |
| DevicesListTool.LineBuilder.AppendLine | src/MobileDevMcp.Server/AndroidDevicesListTool.cs:35-45 | appends the line and a line end |
| DevicesListTool.DeviceLine | src/MobileDevMcp.Server/AndroidDevicesListTool.cs:45 | "- S (STATE) - MODEL", the model "Unknown Model" when null |
| DevicesListTool.DeviceLines | src/MobileDevMcp.Server/AndroidDevicesListTool.cs:43-46 | one line per device, in order |
| DevicesListTool.ReportLines | src/MobileDevMcp.Server/AndroidDevicesListTool.cs:35-47 | the heading, then max(1, n) lines: "No devices connected." or one per device |
| DevicesListTool.Invoke | src/MobileDevMcp.Server/AndroidDevicesListTool.cs:24-61 | starts the server and enumerates; the builder's text is the report's lines, each ended by a line end |
| DevicesListTool.SingleLine | src/MobileDevMcp.Server/AndroidDevicesListTool.cs:45 | a device whose fields are single lines gets a single line |
| DevicesListTool.ReportReadsBack | src/MobileDevMcp.Server/AndroidDevicesListTool.cs:35-47 | the reply splits back into the heading, max(1, n) lines, and nothing after the last line end |

## Left out

- Process execution, the adb, AVD manager and package manager libraries, and the file system are not code here. Their answers are fields of the `Env` snapshot, and the requests made of them are `Command`s. Each tool sees one enumeration, one package query and one process run per invocation.
- The emulator start does not wait for the process. Only its argument string and whether it started are modelled.
- Directory creation before a pull is not modelled. It changes nothing in the reply unless it throws.
- Exceptions thrown inside the libraries are not modelled, apart from null results and failed process starts. So the catch-all texts of the devices, list-AVDs and devices-list tools are never produced.
- The exception messages in catch-all texts are placeholders (`Args.FaultMessage`); .NET's exact wording is not modelled.
- JSON `null` argument values and argument kinds other than string, boolean and number are not modelled.
- `Text.Lower`: folds ASCII letters only. `OrdinalIgnoreCase` and `ToLowerInvariant` also fold other Unicode letters.
- The `N0` grouped length of the installer's APK and `Path.GetFileName` come as given fields of the local file.
- The tools' names, descriptions and input schemas are not modelled. The required-key sets of the install and shell tools are the exception: constants with a lemma each.
- `DevicesListTool.LineBuilder.AppendLine`: ends lines with "\n"; `Environment.NewLine` is "\r\n" on Windows.
- ListPackagesTool.Run: `includeUninstalled` is passed to the package query. How the device's answer depends on it is not modelled.
- ShellTool.Run: the tool's inner catch, "Error executing command: ", is not modelled. Only a string interpolation is inside it, and that cannot throw.
- The cancellation token is never consulted, so it is not modelled.
- The unused `avdManagerCmd` string of the create tool is not modelled. The echo shell call of the push tool is issued, so it is modelled as a command.
- DateMcpServer.cs is not part of this model: it reads the wall clock. Neither is Program.cs, which only wires up hosting.
