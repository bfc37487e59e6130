/**
 * The audio-device list of audio_manager.py: parsing ffmpeg's DirectShow
 * listing on Windows and `pactl list sources` on Linux, and the platform
 * dispatch behind AudioManager.audio_devices.
 */
module Audio {
  import opened Wrappers
  import opened Text

  // ---------------------------------------------------------------
  // Windows: ffmpeg -list_devices true -f dshow -i dummy
  // ---------------------------------------------------------------

  /** A listing line names a device when it mentions "audio" and holds a double quote. */
  predicate NamesDevice(line: string)
  {
    Contains(line, "audio") && |Split(line, '"')| > 1
  }

  /** `line.split('"')[1]`: the text after the first quote, up to the next one or the end. */
  function DeviceName(line: string): (name: string)
    requires NamesDevice(line)
    ensures '"' in line && name == AfterFirst(line, '"')
  {
    SecondField(line, '"');
    Split(line, '"')[1]
  }

  /** The devices of a listing, one per naming line, in line order. */
  function WindowsDevices(lines: seq<string>): seq<string>
    decreases |lines|
  {
    if |lines| == 0 then []
    else
      var last := lines[|lines| - 1];
      WindowsDevices(lines[..|lines| - 1]) + (if NamesDevice(last) then [DeviceName(last)] else [])
  }

  /** The parsing loop of _get_windows_audio_devices. */
  method CollectWindowsDevices(lines: seq<string>) returns (devices: seq<string>)
    ensures devices == WindowsDevices(lines)
  {
    devices := [];
    var i := 0;
    while i < |lines|
      invariant 0 <= i <= |lines|
      invariant devices == WindowsDevices(lines[..i])
    {
      assert lines[..i + 1][..i] == lines[..i];
      if NamesDevice(lines[i]) {
        devices := devices + [DeviceName(lines[i])];
      }
      i := i + 1;
    }
    assert lines[..i] == lines;
  }

  /**
   * The listing of two stretches of output is the two listings one after the
   * other: order follows the lines and nothing is merged or dropped.
   */
  lemma {:induction false} WindowsDevicesAppend(a: seq<string>, b: seq<string>)
    ensures WindowsDevices(a + b) == WindowsDevices(a) + WindowsDevices(b)
    decreases |b|
  {
    if |b| == 0 {
      assert a + b == a;
    } else {
      var ab := a + b;
      assert ab[..|ab| - 1] == a + b[..|b| - 1];
      assert ab[|ab| - 1] == b[|b| - 1];
      WindowsDevicesAppend(a, b[..|b| - 1]);
    }
  }

  /** One line on its own: a device exactly when it names one. */
  lemma WindowsDevicesOfLine(line: string)
    ensures WindowsDevices([line]) == if NamesDevice(line) then [DeviceName(line)] else []
  {
    assert [line][..0] == [];
  }

  /** Every device the listing yields is the name on some naming line. */
  lemma {:induction false} WindowsDevicesFromLines(lines: seq<string>, k: nat)
    requires k < |WindowsDevices(lines)|
    ensures exists j :: 0 <= j < |lines| && NamesDevice(lines[j]) && WindowsDevices(lines)[k] == DeviceName(lines[j])
    decreases |lines|
  {
    var init := lines[..|lines| - 1];
    var last := lines[|lines| - 1];
    if k < |WindowsDevices(init)| {
      WindowsDevicesFromLines(init, k);
      var j :| 0 <= j < |init| && NamesDevice(init[j]) && WindowsDevices(init)[k] == DeviceName(init[j]);
      assert lines[j] == init[j];
    } else {
      assert NamesDevice(last) && WindowsDevices(lines)[k] == DeviceName(last);
    }
  }

  /** The usual listing line: the name between the first two quotes. */
  lemma QuotedDevice(before: string, name: string, after: string)
    requires '"' !in before && '"' !in name
    requires Contains(before + "\"" + name + "\"" + after, "audio")
    ensures var line := before + "\"" + name + "\"" + after;
      NamesDevice(line) && DeviceName(line) == name
  {
    var line := before + "\"" + name + "\"" + after;
    var rest := name + "\"" + after;
    assert line == before + ['"'] + rest;
    SplitCons(before, rest, '"');
    assert rest == name + ['"'] + after;
    SplitCons(name, after, '"');
  }

  /** With a single quote the name runs to the end of the line. */
  lemma OpenQuoteDevice(before: string, name: string)
    requires '"' !in before && '"' !in name
    requires Contains(before + "\"" + name, "audio")
    ensures var line := before + "\"" + name;
      NamesDevice(line) && DeviceName(line) == name
  {
    var line := before + "\"" + name;
    assert line == before + ['"'] + name;
    SplitCons(before, name, '"');
  }

  // ---------------------------------------------------------------
  // Linux: pactl list sources
  // ---------------------------------------------------------------

  predicate NamesSource(line: string)
  {
    Contains(line, "Name:") && |Tokens(line)| > 1
  }

  /** The comprehension of _get_linux_audio_devices: the second word of every `Name:` line. */
  function LinuxDevices(lines: seq<string>): (devices: seq<string>)
    ensures |devices| <= |lines|
    ensures forall k :: 0 <= k < |devices| ==> |devices[k]| > 0 && NoSpace(devices[k])
    decreases |lines|
  {
    if |lines| == 0 then []
    else (if NamesSource(lines[0]) then [Tokens(lines[0])[1]] else []) + LinuxDevices(lines[1..])
  }

  lemma {:induction false} LinuxDevicesAppend(a: seq<string>, b: seq<string>)
    ensures LinuxDevices(a + b) == LinuxDevices(a) + LinuxDevices(b)
    decreases |a|
  {
    if |a| == 0 {
      assert a + b == b;
    } else {
      assert (a + b)[0] == a[0] && (a + b)[1..] == a[1..] + b;
      LinuxDevicesAppend(a[1..], b);
    }
  }

  /** pactl's `Name: <source>` line, indented by a tab, yields the source's name. */
  lemma SourceLine(name: string)
    requires |name| > 0 && NoSpace(name)
    ensures NamesSource("\tName: " + name) && LinuxDevices(["\tName: " + name]) == [name]
  {
    var line := "\tName: " + name;
    assert line == ['\t'] + "Name:" + [' '] + name;
    SourceLineTokens(name);
    assert OccursAt(line, "Name:", 1);
    assert [line][1..] == [];
  }

  lemma SourceLineTokens(name: string)
    requires |name| > 0 && NoSpace(name)
    ensures Tokens(['\t'] + "Name:" + [' '] + name) == ["Name:", name]
  {
    assert NoSpace("Name:");
    IndentedPair('\t', "Name:", name);
  }

  /** An indented key, a blank and a value are two tokens. */
  lemma IndentedPair(indent: char, key: string, value: string)
    requires IsSpace(indent) && |key| > 0 && NoSpace(key) && |value| > 0 && NoSpace(value)
    ensures Tokens([indent] + key + [' '] + value) == [key, value]
  {
    var tail := [' '] + value;
    assert [indent] + key + [' '] + value == [indent] + (key + tail);
    TokensAfterSpace(indent, key + tail);
    TokensOfWord(key, tail);
    TokensAfterSpace(' ', value);
    assert value + [] == value;
    TokensOfWord(value, []);
  }

  // ---------------------------------------------------------------
  // Platform dispatch
  // ---------------------------------------------------------------

  datatype Platform = Windows | Linux | OtherPlatform

  /**
   * What listing the Windows devices meets: no bundled ffmpeg, a run that
   * fails (a non-zero exit or a missing program), or the lines of its stderr.
   */
  datatype WindowsListing = NoEncoder | ListingFailed | Listing(stderr: seq<string>)

  /** `pactl` either is missing, which raises, or prints its lines; its exit status is not checked. */
  datatype LinuxListing = PactlMissing | Sources(stdout: seq<string>)

  /** get_audio_devices; None when the call raises. */
  function GetAudioDevices(p: Platform, win: WindowsListing, linux: LinuxListing): (r: Option<seq<string>>)
    ensures r.None? <==> p == Linux && linux == PactlMissing
    ensures p == OtherPlatform ==> r == Some([])
    ensures p == Windows && !win.Listing? ==> r == Some([])
    ensures p == Windows && win.Listing? ==> r == Some(WindowsDevices(win.stderr))
    ensures p == Linux && linux.Sources? ==> r == Some(LinuxDevices(linux.stdout))
  {
    match p
    case Windows =>
      (match win
       case NoEncoder => Some([])
       case ListingFailed => Some([])
       case Listing(lines) => Some(WindowsDevices(lines)))
    case Linux =>
      (match linux
       case PactlMissing => None
       case Sources(lines) => Some(LinuxDevices(lines)))
    case OtherPlatform => Some([])
  }

  class AudioManager {
    var audioDevices: seq<string>

    constructor (devices: seq<string>)
      ensures audioDevices == devices
    {
      audioDevices := devices;
    }

    /** refresh_devices: a fresh listing replaces the old one; when the listing raises, nothing changes. */
    method RefreshDevices(p: Platform, win: WindowsListing, linux: LinuxListing) returns (raised: bool)
      modifies this
      ensures raised <==> GetAudioDevices(p, win, linux).None?
      ensures audioDevices == if raised then old(audioDevices) else GetAudioDevices(p, win, linux).value
    {
      var found := ListDevices(p, win, linux);
      if found.Some? {
        audioDevices := found.value;
        raised := false;
      } else {
        raised := true;
      }
    }
  }

  /** The listing, with the Windows lines parsed by the loop. */
  method ListDevices(p: Platform, win: WindowsListing, linux: LinuxListing) returns (r: Option<seq<string>>)
    ensures r == GetAudioDevices(p, win, linux)
  {
    match p
    case Windows =>
      if win.Listing? {
        var devices := CollectWindowsDevices(win.stderr);
        r := Some(devices);
      } else {
        r := Some([]);
      }
    case Linux =>
      r := if linux.PactlMissing? then None else Some(LinuxDevices(linux.stdout));
    case OtherPlatform =>
      r := Some([]);
  }

  /** __init__: the manager exists only when the first listing does not raise. */
  method NewAudioManager(p: Platform, win: WindowsListing, linux: LinuxListing) returns (m: Option<AudioManager>)
    ensures m.Some? <==> GetAudioDevices(p, win, linux).Some?
    ensures m.Some? ==> fresh(m.value) && m.value.audioDevices == GetAudioDevices(p, win, linux).value
  {
    var found := ListDevices(p, win, linux);
    if found.Some? {
      var manager := new AudioManager(found.value);
      m := Some(manager);
    } else {
      m := None;
    }
  }
}
