/**
 * The recording window of main.py, the version before multi-part recording:
 * one encoder process per recording, started and stopped with the toggle
 * button, the area rule and the two grabbers (gdigrab on Windows, x11grab on
 * Linux), the audio listing and the language chooser. Its start and stop
 * logic is the same in MiniScreenRecorder.py, whose window
 * reuses the functions here.
 */
module LegacyApp {
  import opened Wrappers
  import opened Capture
  import opened Encoder
  import Timer
  import Audio
  import Recorder
  import Translation
  import Text

  /** The grabber platform.system() selects, with the DISPLAY variable as read on Linux. */
  datatype Backend = Gdigrab | X11grab(display: Option<string>)

  /** What start_recording, stop_recording and the timer methods change. */
  datatype LegacyState = LegacyState(hasProcess: bool, clock: Timer.Clock, recordArea: Option<Rect>,
                                     videoPath: string)

  /** The fields as __init__ leaves them. */
  function Idle(): LegacyState
  {
    LegacyState(false, Timer.Clock(false, 0), None, "")
  }

  /**
   * `os.path.join(output_folder, "Video.<stamp>.<format>")`, joined as the
   * grabber's platform joins: with a backslash on Windows, with `/` on Linux.
   */
  function VideoPath(folder: string, b: Backend, sw: Recorder.StartWorld): (p: string)
    ensures var n := Recorder.PartName(sw.stamp, sw.settings.format);
      |p| >= |n| && p[|p| - |n|..] == n
    ensures var n := Recorder.PartName(sw.stamp, sw.settings.format);
      b.X11grab? && |folder| > 0 ==> |p| >= |folder| + |n| && p[..|folder|] == folder && p[|p| - |n| - 1] == '/'
  {
    match b
    case Gdigrab => Recorder.PathJoin(folder, Recorder.PartName(sw.stamp, sw.settings.format))
    case X11grab(_) => Recorder.PosixJoin(folder, Recorder.PartName(sw.stamp, sw.settings.format))
  }

  /**
   * The separator follows the platform: a folder without a trailing
   * separator gets `/` before the name on Linux and a backslash on Windows,
   * and on Linux no backslash appears that the folder or the name did not hold.
   */
  lemma VideoPathSeparator(folder: string, display: Option<string>, sw: Recorder.StartWorld)
    requires |folder| > 0 && folder[|folder| - 1] != '/' && folder[|folder| - 1] != '\\'
    ensures var name := Recorder.PartName(sw.stamp, sw.settings.format);
      && VideoPath(folder, X11grab(display), sw) == folder + "/" + name
      && VideoPath(folder, Gdigrab, sw) == folder + "\\" + name
      && ('\\' in VideoPath(folder, X11grab(display), sw) ==> '\\' in folder || '\\' in name)
  {
    Recorder.PosixJoinAddsNoBackslash(folder, Recorder.PartName(sw.stamp, sw.settings.format));
  }

  /** The argument list written out for each platform. */
  function GrabArgs(b: Backend, cfg: Settings, r: Region, path: string): seq<Arg>
  {
    match b
    case Gdigrab => LegacyGdigrabArgs(cfg, r, path)
    case X11grab(display) => X11grabArgs(display, cfg, r, path)
  }

  /** The command handed to Popen, the program being the bare "ffmpeg"; none when the area is refused. */
  function Launch(s: LegacyState, folder: string, b: Backend, sw: Recorder.StartWorld): Option<seq<string>>
  {
    match Resolve(s.recordArea, sw.monitor)
    case Refused(_) => None
    case Captured(r) => Some(CommandLine("ffmpeg", GrabArgs(b, sw.settings, r, VideoPath(folder, b, sw))))
  }

  /**
   * start_recording: the video path is set first; a refused area and a failed
   * Popen return at once, so only a spawned encoder starts the counter.
   */
  function StartRec(s: LegacyState, folder: string, b: Backend, sw: Recorder.StartWorld): LegacyState
  {
    var named := s.(videoPath := VideoPath(folder, b, sw));
    if Recorder.OutcomeOf(s.recordArea, sw) == Recorder.Recording then
      named.(hasProcess := true, clock := Timer.Start())
    else named
  }

  /** stop_recording: everything happens inside `if self.recording_process`. */
  function StopRec(s: LegacyState): LegacyState
  {
    if !s.hasProcess then s
    else s.(hasProcess := false, clock := Timer.Stop(s.clock), recordArea := None)
  }

  /** toggle_recording. */
  function Toggle(s: LegacyState, folder: string, b: Backend, sw: Recorder.StartWorld): LegacyState
  {
    if !s.clock.running then StartRec(s, folder, b, sw) else StopRec(s)
  }

  /** The encoder runs exactly while the counter does. */
  ghost predicate Consistent(s: LegacyState)
  {
    s.hasProcess == s.clock.running
  }

  // ---------------------------------------------------------------
  // Properties of start and stop
  // ---------------------------------------------------------------

  /** A refused area returns before any command is built: only the video path has changed. */
  lemma RefusedAreaReturns(s: LegacyState, folder: string, b: Backend, sw: Recorder.StartWorld)
    requires Resolve(s.recordArea, sw.monitor).Refused?
    ensures Launch(s, folder, b, sw) == None
    ensures Recorder.OutcomeOf(s.recordArea, sw) == Recorder.AreaRefused(Resolve(s.recordArea, sw.monitor).reason)
    ensures StartRec(s, folder, b, sw) == s.(videoPath := VideoPath(folder, b, sw))
  {
  }

  /** A failed Popen returns before start_timer: a stopped counter stays stopped and no process is recorded. */
  lemma SpawnFailureReturns(s: LegacyState, folder: string, b: Backend, sw: Recorder.StartWorld)
    requires Resolve(s.recordArea, sw.monitor).Captured? && !sw.spawned
    ensures Launch(s, folder, b, sw).Some? && Recorder.OutcomeOf(s.recordArea, sw) == Recorder.SpawnFailed
    ensures var t := StartRec(s, folder, b, sw);
      t.hasProcess == s.hasProcess && t.clock == s.clock && t.recordArea == s.recordArea
  {
  }

  /**
   * A spawned encoder: the counter shows 1 and runs, and the command is
   * "ffmpeg" ... video path, the offsets being the area's top-left plus the
   * monitor's origin, or the monitor's own with no area.
   */
  lemma StartRecords(s: LegacyState, folder: string, b: Backend, sw: Recorder.StartWorld)
    requires Recorder.OutcomeOf(s.recordArea, sw) == Recorder.Recording
    ensures var t := StartRec(s, folder, b, sw);
      && t.hasProcess && t.clock == Timer.Clock(true, 1)
      && t.recordArea == s.recordArea && t.videoPath == VideoPath(folder, b, sw)
    ensures Launch(s, folder, b, sw).Some?
    ensures var cmd := Launch(s, folder, b, sw).value;
      cmd[0] == "ffmpeg" && cmd[|cmd| - 1] == VideoPath(folder, b, sw)
  {
    var r := Resolve(s.recordArea, sw.monitor).region;
    var a := GrabArgs(b, sw.settings, r, VideoPath(folder, b, sw));
    assert a[|a| - 1] == Output(VideoPath(folder, b, sw));
    RenderEndsWithOutput(a, VideoPath(folder, b, sw));
  }

  /**
   * What each grabber's argument list says. Windows: the offsets as options;
   * Linux: no offset options, the offsets inside the screen input, and the
   * PulseAudio device passed unchanged. Both: the size, codec, bitrate and the
   * output path last.
   */
  lemma GrabArgsMeaning(b: Backend, cfg: Settings, r: Region, path: string)
    ensures var a := GrabArgs(b, cfg, r, path);
      && OptionIs(a, VideoSize, SizeText(r.width, r.height))
      && OptionIs(a, VideoCodec, cfg.codec)
      && OnlyOutput(a, path)
      && (b.Gdigrab? ==> IntOption(a, OffsetX, r.offsetX) && IntOption(a, OffsetY, r.offsetY)
                         && OptionIs(a, VideoBitrate, cfg.bitrate) && NoOption(a, Preset))
      && (b.X11grab? ==>
            var screen := ScreenInput(DisplayText(b.display), r.offsetX, r.offsetY);
            && NoOption(a, OffsetX) && NoOption(a, OffsetY)
            && HasOption(a, Input, screen) && HasOption(a, Input, cfg.audioDevice)
            && ParseScreenInput(DisplayText(b.display), screen) == Some((r.offsetX, r.offsetY)))
  {
    match b
    case Gdigrab => LegacyGdigrabMeaning(cfg, r, path);
    case X11grab(display) => X11grabMeaning(display, cfg, r, path);
  }

  /**
   * stop_recording without a process changes nothing, not even the counter;
   * with one, the process, the counter and the area are cleared, and a second
   * call changes nothing more.
   */
  lemma StopEffects(s: LegacyState)
    ensures !s.hasProcess ==> StopRec(s) == s
    ensures s.hasProcess ==> var t := StopRec(s);
      && !t.hasProcess && !t.clock.running && t.clock.elapsed == s.clock.elapsed
      && t.recordArea == None && t.videoPath == s.videoPath
    ensures StopRec(StopRec(s)) == StopRec(s)
  {
  }

  /** Start and stop keep the process and the counter together, so the toggle always picks the right one. */
  lemma ToggleKeepsConsistent(s: LegacyState, folder: string, b: Backend, sw: Recorder.StartWorld)
    requires Consistent(s)
    ensures Consistent(StartRec(s, folder, b, sw)) && Consistent(StopRec(s))
    ensures Consistent(Toggle(s, folder, b, sw))
    ensures s.clock.running ==> !Toggle(s, folder, b, sw).hasProcess
  {
  }

  // ---------------------------------------------------------------
  // The audio listing
  // ---------------------------------------------------------------

  /**
   * get_audio_devices over the listing program's output lines: the Windows
   * and Linux parsing is that of audio_manager.py; any other platform falls
   * off the end of the method, which returns None.
   */
  function ListedDevices(p: Audio.Platform, lines: seq<string>): (r: Option<seq<string>>)
    ensures r.None? <==> p == Audio.OtherPlatform
  {
    match p
    case Windows => Some(Audio.WindowsDevices(lines))
    case Linux => Some(Audio.LinuxDevices(lines))
    case OtherPlatform => None
  }

  /** On both supported platforms, the same devices as the later AudioManager; elsewhere it has none at all. */
  lemma ListingAgrees(p: Audio.Platform, lines: seq<string>)
    ensures p != Audio.OtherPlatform ==>
      ListedDevices(p, lines) == Audio.GetAudioDevices(p, Audio.Listing(lines), Audio.Sources(lines))
    ensures p == Audio.OtherPlatform ==>
      ListedDevices(p, lines) == None && Audio.GetAudioDevices(p, Audio.Listing(lines), Audio.Sources(lines)) == Some([])
  {
  }

  /** The `Name:` loop. */
  method CollectLinuxDevices(lines: seq<string>) returns (devices: seq<string>)
    ensures devices == Audio.LinuxDevices(lines)
  {
    devices := [];
    var i := 0;
    while i < |lines|
      invariant 0 <= i <= |lines|
      invariant devices == Audio.LinuxDevices(lines[..i])
    {
      Audio.LinuxDevicesAppend(lines[..i], [lines[i]]);
      assert lines[..i + 1] == lines[..i] + [lines[i]];
      assert [lines[i]][1..] == [];
      if Audio.NamesSource(lines[i]) {
        devices := devices + [Text.Tokens(lines[i])[1]];
      }
      i := i + 1;
    }
    assert lines[..i] == lines;
  }

  /** get_audio_devices, with its two loops. */
  method ListAudioDevices(p: Audio.Platform, lines: seq<string>) returns (devices: Option<seq<string>>)
    ensures devices == ListedDevices(p, lines)
  {
    if p == Audio.Windows {
      var found := Audio.CollectWindowsDevices(lines);
      devices := Some(found);
    } else if p == Audio.Linux {
      var found := CollectLinuxDevices(lines);
      devices := Some(found);
    } else {
      devices := None;
    }
  }

  // ---------------------------------------------------------------
  // The language chooser
  // ---------------------------------------------------------------

  /** The language combo's entries, and the codes init_ui looks the current language up in, in the same order. */
  const LanguageNames: seq<string> := ["English", "Español", "中文(简体)", "Italiano", "Français", "हिन्दी", "Deutsch", "Português"]
  const LanguageCodes: seq<string> := ["en", "es", "zh", "it", "fr", "hi", "de", "pt"]

  /** change_language's map, with English for any other entry. */
  function LanguageCode(selected: string): (code: string)
    ensures code in LanguageCodes
  {
    var languageMap := map["English" := "en", "Español" := "es", "中文(简体)" := "zh", "Italiano" := "it",
                           "Français" := "fr", "हिन्दी" := "hi", "Deutsch" := "de", "Português" := "pt"];
    if selected in languageMap then languageMap[selected] else "en"
  }

  /** Choosing the i-th entry selects the i-th code, so the combo shows the chosen language after the reload. */
  lemma LanguageComboRoundTrip(i: nat)
    requires i < |LanguageNames|
    ensures LanguageCode(LanguageNames[i]) == LanguageCodes[i]
  {
    if i == 0 {} else if i == 1 {} else if i == 2 {} else if i == 3 {}
    else if i == 4 {} else if i == 5 {} else if i == 6 {} else {}
  }

  /** Anything that is not an entry of the combo falls back to English. */
  lemma UnknownLanguageIsEnglish(selected: string)
    requires selected !in LanguageNames
    ensures LanguageCode(selected) == "en"
  {
  }

  // ---------------------------------------------------------------
  // The window
  // ---------------------------------------------------------------

  /** ScreenRecorderApp of main.py, with the folder and grabber fixed at start-up. */
  class LegacyRecorder {
    const outputFolder: string
    const backend: Backend
    const translator: Translation.TranslationManager
    var hasProcess: bool
    var running: bool
    var elapsedTime: nat
    var recordArea: Option<Rect>
    var videoPath: string

    function Snapshot(): LegacyState
      reads this
    {
      LegacyState(hasProcess, Timer.Clock(running, elapsedTime), recordArea, videoPath)
    }

    constructor (outputFolder: string, backend: Backend, translator: Translation.TranslationManager)
      ensures this.outputFolder == outputFolder && this.backend == backend && this.translator == translator
      ensures Snapshot() == Idle()
    {
      this.outputFolder := outputFolder;
      this.backend := backend;
      this.translator := translator;
      hasProcess := false;
      running := false;
      elapsedTime := 0;
      recordArea := None;
      videoPath := "";
    }

    /** set_record_area. */
    method SetRecordArea(area: Option<Rect>)
      modifies this
      ensures Snapshot() == old(Snapshot()).(recordArea := area)
    {
      recordArea := area;
    }

    method UpdateTimer()
      modifies this
      ensures Snapshot() == old(Snapshot()).(clock := Timer.Update(old(Snapshot()).clock))
    {
      if running {
        elapsedTime := elapsedTime + 1;
      }
    }

    method StartTimer()
      modifies this
      ensures Snapshot() == old(Snapshot()).(clock := Timer.Start())
    {
      running := true;
      elapsedTime := 0;
      UpdateTimer();
    }

    method StopTimer()
      modifies this
      ensures Snapshot() == old(Snapshot()).(clock := Timer.Stop(old(Snapshot()).clock))
    {
      running := false;
    }

    /** start_recording: returns how it ended and the command handed to Popen, if one was built. */
    method StartRecording(sw: Recorder.StartWorld) returns (outcome: Recorder.StartOutcome, command: Option<seq<string>>)
      modifies this
      ensures Snapshot() == StartRec(old(Snapshot()), outputFolder, backend, sw)
      ensures outcome == Recorder.OutcomeOf(old(recordArea), sw)
      ensures command == Launch(old(Snapshot()), outputFolder, backend, sw)
    {
      videoPath := VideoPath(outputFolder, backend, sw);
      var target := Resolve(recordArea, sw.monitor);
      if target.Refused? {
        outcome, command := Recorder.AreaRefused(target.reason), None;
        return;
      }
      command := Some(CommandLine("ffmpeg", GrabArgs(backend, sw.settings, target.region, videoPath)));
      if !sw.spawned {
        outcome := Recorder.SpawnFailed;
        return;
      }
      hasProcess := true;
      outcome := Recorder.Recording;
      StartTimer();
    }

    /** stop_recording, once the encoder has exited. */
    method StopRecording()
      modifies this
      ensures Snapshot() == StopRec(old(Snapshot()))
    {
      if hasProcess {
        hasProcess := false;
        StopTimer();
        recordArea := None;
      }
    }

    /** toggle_recording. */
    method ToggleRecording(sw: Recorder.StartWorld)
      modifies this
      ensures Snapshot() == Toggle(old(Snapshot()), outputFolder, backend, sw)
    {
      if !running {
        var _, _ := StartRecording(sw);
      } else {
        StopRecording();
      }
    }

    /** change_language: the chosen entry's code, or English, is loaded; the recording state is untouched. */
    method ChangeLanguage(selected: string, files: map<string, Translation.Ini>) returns (error: Option<Translation.LoadError>)
      modifies translator
      ensures translator.language == LanguageCode(selected) && translator.isRtl == old(translator.isRtl)
      ensures (translator.translation, error) == Translation.Load(files, LanguageCode(selected))
    {
      error := translator.ChangeLanguage(LanguageCode(selected), files);
    }
  }
}
