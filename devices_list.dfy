/**
 * android-devices-list: start the adb server, enumerate the devices and
 * build the reply line by line in a text builder, one line per device, as
 * the tool does with a StringBuilder in a loop.
 */
module DevicesListTool {
  import opened Base
  import opened Text
  import opened Bridge

  /** A growable text to which whole lines are appended ("\n" line ends). */
  class LineBuilder {
    var text: string

    constructor ()
      ensures text == ""
    {
      text := "";
    }

    /** AppendLine(line) */
    method AppendLine(line: string)
      modifies this
      ensures text == old(text) + line + "\n"
    {
      text := text + line + "\n";
    }
  }

  const Heading := "Connected Android Devices:"
  const NoneConnectedLine := "No devices connected."

  /** "- SERIAL (STATE) - MODEL", the model defaulting to "Unknown Model". */
  function DeviceLine(d: Device): string {
    "- " + d.serial + " (" + d.state + ") - " + ModelName(d)
  }

  function DeviceLines(devices: seq<Device>): (lines: seq<string>)
    ensures |lines| == |devices|
    ensures forall i :: 0 <= i < |devices| ==> lines[i] == DeviceLine(devices[i])
  {
    seq(|devices|, i requires 0 <= i < |devices| => DeviceLine(devices[i]))
  }

  /** The lines of the reply: the heading, then one line per device or the no-device line. */
  function ReportLines(devices: seq<Device>): (lines: seq<string>)
    ensures |lines| == 1 + Max(1, |devices|)
    ensures lines[0] == Heading
    ensures devices == [] ==> lines[1] == NoneConnectedLine
    ensures forall i :: 0 <= i < |devices| ==> lines[i + 1] == DeviceLine(devices[i])
  {
    [Heading] + if devices == [] then [NoneConnectedLine] else DeviceLines(devices)
  }

  /** The whole tool: the reply is the report's lines, each ended by a newline. */
  method Invoke(env: Env) returns (o: Outcome)
    ensures o.commands == [StartAdbServer("/usr/bin/adb"), EnumerateDevices]
    ensures o.text == Unlines(ReportLines(env.devices))
  {
    var devices := env.devices;
    var sb := new LineBuilder();
    sb.AppendLine(Heading);
    assert sb.text == Unlines([Heading]);
    if devices == [] {
      sb.AppendLine(NoneConnectedLine);
      UnlinesSnoc([Heading], NoneConnectedLine);
    } else {
      var i := 0;
      while i < |devices|
        invariant 0 <= i <= |devices|
        invariant sb.text == Unlines([Heading] + DeviceLines(devices[..i]))
      {
        sb.AppendLine(DeviceLine(devices[i]));
        UnlinesSnoc([Heading] + DeviceLines(devices[..i]), DeviceLine(devices[i]));
        assert [Heading] + DeviceLines(devices[..i + 1]) == [Heading] + DeviceLines(devices[..i]) + [DeviceLine(devices[i])];
        i := i + 1;
      }
      assert devices[..i] == devices;
    }
    o := Outcome([StartAdbServer("/usr/bin/adb"), EnumerateDevices], sb.text);
  }

  /** No field shown for a device spans several lines. */
  predicate SingleLineFields(d: Device) {
    '\n' !in d.serial && '\n' !in d.state && (d.model.Some? ==> '\n' !in d.model.value)
  }

  /** A device whose fields are single lines gets a single line. */
  lemma SingleLine(d: Device)
    requires SingleLineFields(d)
    ensures '\n' !in DeviceLine(d)
  {
    assert DeviceLine(d) == "- " + d.serial + " (" + d.state + ") - " + ModelName(d);
  }

  /**
   * The reply reads back as the heading, then one line per device in
   * enumeration order (or the single no-device line), then nothing after the
   * last line end.
   */
  lemma {:induction false} ReportReadsBack(devices: seq<Device>)
    requires forall i :: 0 <= i < |devices| ==> SingleLineFields(devices[i])
    ensures var lines := Split(Unlines(ReportLines(devices)), '\n');
      |lines| == 2 + Max(1, |devices|)
      && lines == ReportLines(devices) + [""]
  {
    var lines := ReportLines(devices);
    forall k | 0 <= k < |lines| ensures '\n' !in lines[k] {
      if k == 0 {
        assert forall j :: 0 <= j < |Heading| ==> Heading[j] != '\n';
      } else if devices == [] {
        assert forall j :: 0 <= j < |NoneConnectedLine| ==> NoneConnectedLine[j] != '\n';
      } else {
        SingleLine(devices[k - 1]);
      }
    }
    SplitUnlines(lines);
  }
}
