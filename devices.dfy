/**
 * android-devices: list the connected devices and emulators, one numbered
 * line each, or explain how to get a device connected when there is none.
 */
module DevicesTool {
  import opened Base
  import opened Text
  import opened Args
  import opened Listing
  import opened Bridge

  const NoDevicesText :=
    "No Android devices found. Make sure:\n"
    + "- Android SDK is installed\n"
    + "- ADB is in your PATH\n"
    + "- USB debugging is enabled on your device\n"
    + "- Device is connected via USB or network"

  /** A device's description after its number: serial, then product and model when known, then an emulator mark. */
  function Describe(d: Device): string {
    "Serial: " + d.serial
      + (if d.product != "" then ", Product: " + d.product else "")
      + (if !IsNullOrEmpty(d.model) then ", Model: " + d.model.value else "")
      + (if d.isEmulator then " (Emulator)" else "")
  }

  function Header(count: nat): string {
    "Found " + NatToString(count) + " Android device(s):\n\n"
  }

  /** The whole tool: one enumeration, then the guidance text or the numbered listing. */
  function Invoke(env: Env): (o: Outcome)
    ensures o.commands == [EnumerateDevices]
    ensures env.devices == [] ==> o.text == NoDevicesText
    ensures env.devices != [] ==>
      o.text == Header(|env.devices|) + Join(Numbered(env.devices, Describe), "\n")
  {
    if env.devices == [] then Outcome([EnumerateDevices], NoDevicesText)
    else Outcome([EnumerateDevices], Header(|env.devices|) + Join(Numbered(env.devices, Describe), "\n"))
  }

  /** No field of a device spans several lines. */
  predicate SingleLineFields(d: Device) {
    '\n' !in d.serial && '\n' !in d.product && (d.model.Some? ==> '\n' !in d.model.value)
  }

  /** A device whose fields are single lines is described on a single line. */
  lemma SingleLine(d: Device)
    requires SingleLineFields(d)
    ensures '\n' !in Describe(d)
  {
    assert Describe(d) == "Serial: " + d.serial
      + (if d.product != "" then ", Product: " + d.product else "")
      + (if !IsNullOrEmpty(d.model) then ", Model: " + d.model.value else "")
      + (if d.isEmulator then " (Emulator)" else "");
  }

  /**
   * The listing after the header reads back as one line per device, in
   * enumeration order, each starting with its number and serial.
   */
  lemma OneLinePerDevice(env: Env)
    requires env.devices != []
    requires forall i :: 0 <= i < |env.devices| ==> SingleLineFields(env.devices[i])
    ensures var header := Header(|env.devices|);
      StartsWith(Invoke(env).text, header)
      && var lines := Split(Invoke(env).text[|header|..], '\n');
      |lines| == |env.devices|
      && forall i :: 0 <= i < |lines| ==>
           StartsWith(lines[i], NatToString(i + 1) + ". ") && lines[i] == NatToString(i + 1) + ". " + Describe(env.devices[i])
  {
    var header := Header(|env.devices|);
    var listing := Join(Numbered(env.devices, Describe), "\n");
    assert Invoke(env).text == header + listing;
    assert (header + listing)[..|header|] == header;
    assert (header + listing)[|header|..] == listing;
    forall i | 0 <= i < |env.devices| ensures '\n' !in Describe(env.devices[i]) {
      SingleLine(env.devices[i]);
    }
    NumberedReadsBack(env.devices, Describe);
  }

  /** An emulator's line ends with the emulator mark. */
  lemma EmulatorsMarked(d: Device)
    requires d.isEmulator
    ensures EndsWith(Describe(d), " (Emulator)")
  {
    var t := Describe(d);
    var body := "Serial: " + d.serial
      + (if d.product != "" then ", Product: " + d.product else "")
      + (if !IsNullOrEmpty(d.model) then ", Model: " + d.model.value else "");
    assert t == body + " (Emulator)";
    assert t[|t| - |" (Emulator)"|..] == " (Emulator)";
  }
}
