/**
 * android-list-avds: list the configured Android Virtual Devices, one
 * numbered line each, or explain how to create one when there is none.
 */
module ListAvdsTool {
  import opened Base
  import opened Text
  import opened Listing
  import opened Bridge

  const NoAvdsText :=
    "No Android Virtual Devices (AVDs) found. You can create AVDs using:\n"
    + "- Android Studio AVD Manager\n"
    + "- Command line: avdmanager create avd -n <name> -k <systemImage>"

  /** An AVD's description after its number: its name, then target, device and base when known. */
  function Describe(a: Avd): string {
    "Name: " + a.name
      + (if a.target != "" then ", Target: " + a.target else "")
      + (if a.device != "" then ", Device: " + a.device else "")
      + (if a.basedOn != "" then ", Based on: " + a.basedOn else "")
  }

  function Header(count: nat): string {
    "Found " + NatToString(count) + " Android Virtual Device(s):\n\n"
  }

  /** The whole tool: one AVD listing, then the guidance text or the numbered listing. */
  function Invoke(env: Env): (o: Outcome)
    ensures o.commands == [EnumerateAvds]
    ensures env.avds == [] ==> o.text == NoAvdsText
    ensures env.avds != [] ==> o.text == Header(|env.avds|) + Join(Numbered(env.avds, Describe), "\n")
  {
    if env.avds == [] then Outcome([EnumerateAvds], NoAvdsText)
    else Outcome([EnumerateAvds], Header(|env.avds|) + Join(Numbered(env.avds, Describe), "\n"))
  }

  /** No field of an AVD spans several lines. */
  predicate SingleLineFields(a: Avd) {
    '\n' !in a.name && '\n' !in a.target && '\n' !in a.device && '\n' !in a.basedOn
  }

  /** An AVD whose fields are single lines is described on a single line. */
  lemma SingleLine(a: Avd)
    requires SingleLineFields(a)
    ensures '\n' !in Describe(a)
  {
    assert Describe(a) == "Name: " + a.name
      + (if a.target != "" then ", Target: " + a.target else "")
      + (if a.device != "" then ", Device: " + a.device else "")
      + (if a.basedOn != "" then ", Based on: " + a.basedOn else "");
  }

  /**
   * The listing after the header reads back as one line per AVD, in the
   * manager's order, each starting with its number and name.
   */
  lemma OneLinePerAvd(env: Env)
    requires env.avds != []
    requires forall i :: 0 <= i < |env.avds| ==> SingleLineFields(env.avds[i])
    ensures var header := Header(|env.avds|);
      StartsWith(Invoke(env).text, header)
      && var lines := Split(Invoke(env).text[|header|..], '\n');
      |lines| == |env.avds|
      && forall i :: 0 <= i < |lines| ==>
           StartsWith(lines[i], NatToString(i + 1) + ". ") && lines[i] == NatToString(i + 1) + ". " + Describe(env.avds[i])
  {
    var header := Header(|env.avds|);
    var listing := Join(Numbered(env.avds, Describe), "\n");
    assert Invoke(env).text == header + listing;
    assert (header + listing)[..|header|] == header;
    assert (header + listing)[|header|..] == listing;
    forall i | 0 <= i < |env.avds| ensures '\n' !in Describe(env.avds[i]) {
      SingleLine(env.avds[i]);
    }
    NumberedReadsBack(env.avds, Describe);
  }

  /** Every listed AVD is one the start tool accepts by that name. */
  lemma ListedAvdsAreKnown(env: Env, i: nat)
    requires i < |env.avds|
    ensures KnownAvd(env.avds, env.avds[i].name)
  {
    assert EqualsIgnoreCase(env.avds[i].name, env.avds[i].name);
  }
}
