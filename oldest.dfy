/**
 * The first recording window, MiniScreenRecorder.py: the same start and
 * stop logic as main.py, with separate Start and Stop buttons whose enabled
 * states toggle_widgets keeps opposite, and a dark or light palette chosen
 * from the stored setting.
 */
module OldestApp {
  import opened Wrappers
  import opened Capture
  import Timer
  import Recorder
  import LegacyApp
  import Encoder
  import opened Text

  // ---------------------------------------------------------------
  // The theme
  // ---------------------------------------------------------------

  /** The two palettes set_dark_theme and set_light_theme apply. */
  datatype Theme = Dark | Light

  /** set_theme: only "dark" and "light" change the palette; any other name leaves it as it was. */
  function ThemeOf(name: string): (t: Option<Theme>)
    ensures t == Some(Dark) <==> name == "dark"
    ensures t == Some(Light) <==> name == "light"
  {
    if name == "dark" then Some(Dark) else if name == "light" then Some(Light) else None
  }

  /** `config.get('Settings', 'theme', fallback='dark')`. */
  function StoredTheme(setting: Option<string>): string
  {
    match setting
    case Some(name) => name
    case None => "dark"
  }

  /** The theme combo's entries. */
  const ThemeNames: seq<string> := ["Dark", "Light"]

  /** The entry init_ui selects: the first one exactly when the stored theme is "dark". */
  function ThemeIndex(theme: string): (i: nat)
    ensures i < |ThemeNames|
  {
    if theme == "dark" then 0 else 1
  }

  /**
   * change_theme takes the entry in lower case: both entries name a palette,
   * and the stored name shows the same entry again at the next start.
   */
  lemma ThemeComboRoundTrip(i: nat)
    requires i < |ThemeNames|
    ensures ThemeOf(Lower(ThemeNames[i])) == Some(if i == 0 then Dark else Light)
    ensures ThemeIndex(Lower(ThemeNames[i])) == i
  {
    assert Lower("Dark") == "dark" by {
      assert "Dark"[1..] == "ark" && "ark"[1..] == "rk" && "rk"[1..] == "k" && "k"[1..] == "";
    }
    assert Lower("Light") == "light" by {
      assert "Light"[1..] == "ight" && "ight"[1..] == "ght" && "ght"[1..] == "ht";
      assert "ht"[1..] == "t" && "t"[1..] == "";
    }
  }

  /**
   * The two readings of the stored theme: set_theme acts on exactly "dark"
   * and "light", the combo shows Dark exactly for "dark", so any other name
   * keeps Tk's own palette while the combo shows Light.
   */
  lemma StoredThemeShown(setting: Option<string>)
    ensures var theme := StoredTheme(setting);
      && (ThemeIndex(theme) == 0 <==> ThemeOf(theme) == Some(Dark))
      && (ThemeOf(theme) == Some(Light) ==> ThemeIndex(theme) == 1)
      && (ThemeOf(theme) == None ==> ThemeIndex(theme) == 1)
    ensures setting == None ==> ThemeOf(StoredTheme(setting)) == Some(Dark)
  {
  }

  // ---------------------------------------------------------------
  // The window
  // ---------------------------------------------------------------

  /** The two states toggle_widgets is called with. */
  datatype WidgetState = Normal | Disabled

  /** ScreenRecorderApp of MiniScreenRecorder.py. */
  class OldestRecorder {
    const outputFolder: string
    const backend: LegacyApp.Backend
    var hasProcess: bool
    var running: bool
    var elapsedTime: nat
    var recordArea: Option<Rect>
    var videoPath: string
    var startEnabled: bool
    var stopEnabled: bool
    var settingsEnabled: bool
    var palette: Option<Theme>
    var themeIndex: nat

    function Snapshot(): LegacyApp.LegacyState
      reads this
    {
      LegacyApp.LegacyState(hasProcess, Timer.Clock(running, elapsedTime), recordArea, videoPath)
    }

    /**
     * Exactly one of the two buttons is enabled, the settings with Start; Stop
     * is enabled exactly while the encoder runs, and so is the counter.
     */
    ghost predicate Valid()
      reads this
    {
      && startEnabled != stopEnabled && settingsEnabled == startEnabled
      && stopEnabled == hasProcess && hasProcess == running
      && themeIndex < |ThemeNames|
    }

    /** __init__ with the stored theme setting: Stop starts disabled. */
    constructor (outputFolder: string, backend: LegacyApp.Backend, themeSetting: Option<string>)
      ensures Valid() && Snapshot() == LegacyApp.Idle()
      ensures this.outputFolder == outputFolder && this.backend == backend
      ensures startEnabled && !stopEnabled
      ensures palette == ThemeOf(StoredTheme(themeSetting)) && themeIndex == ThemeIndex(StoredTheme(themeSetting))
    {
      this.outputFolder := outputFolder;
      this.backend := backend;
      palette := ThemeOf(StoredTheme(themeSetting));
      themeIndex := ThemeIndex(StoredTheme(themeSetting));
      startEnabled, stopEnabled, settingsEnabled := true, false, true;
      hasProcess, running, elapsedTime := false, false, 0;
      recordArea := None;
      videoPath := "";
    }

    /** set_theme. */
    method SetTheme(theme: string)
      modifies this
      ensures palette == if ThemeOf(theme).Some? then ThemeOf(theme) else old(palette)
      ensures Snapshot() == old(Snapshot()) && themeIndex == old(themeIndex)
      ensures startEnabled == old(startEnabled) && stopEnabled == old(stopEnabled)
      ensures settingsEnabled == old(settingsEnabled)
    {
      if theme == "dark" {
        palette := Some(Dark);
      } else if theme == "light" {
        palette := Some(Light);
      }
    }

    /** change_theme, for the entry chosen in the read-only combo. */
    method ChangeTheme(entry: nat)
      modifies this
      requires Valid() && entry < |ThemeNames|
      ensures Valid() && themeIndex == entry && palette == Some(if entry == 0 then Dark else Light)
      ensures Snapshot() == old(Snapshot())
    {
      themeIndex := entry;
      ThemeComboRoundTrip(entry);
      SetTheme(Lower(ThemeNames[entry]));
    }

    /** toggle_widgets: Start and the settings take the state, Stop the other one. */
    method ToggleWidgets(state: WidgetState)
      modifies this
      ensures startEnabled == (state == Normal) && settingsEnabled == startEnabled
      ensures stopEnabled != startEnabled
      ensures Snapshot() == old(Snapshot()) && palette == old(palette) && themeIndex == old(themeIndex)
    {
      settingsEnabled := state == Normal;
      startEnabled := state == Normal;
      stopEnabled := if state == Disabled then true else false;
    }

    method UpdateTimer()
      modifies this
      ensures Snapshot() == old(Snapshot()).(clock := Timer.Update(old(Snapshot()).clock))
      ensures startEnabled == old(startEnabled) && stopEnabled == old(stopEnabled)
      ensures settingsEnabled == old(settingsEnabled) && palette == old(palette) && themeIndex == old(themeIndex)
    {
      if running {
        elapsedTime := elapsedTime + 1;
      }
    }

    method StartTimer()
      modifies this
      ensures Snapshot() == old(Snapshot()).(clock := Timer.Start())
      ensures startEnabled == old(startEnabled) && stopEnabled == old(stopEnabled)
      ensures settingsEnabled == old(settingsEnabled) && palette == old(palette) && themeIndex == old(themeIndex)
    {
      running := true;
      elapsedTime := 0;
      UpdateTimer();
    }

    method StopTimer()
      modifies this
      ensures Snapshot() == old(Snapshot()).(clock := Timer.Stop(old(Snapshot()).clock))
      ensures startEnabled == old(startEnabled) && stopEnabled == old(stopEnabled)
      ensures settingsEnabled == old(settingsEnabled) && palette == old(palette) && themeIndex == old(themeIndex)
    {
      running := false;
    }

    /** start_recording: as in main.py, and a spawned encoder disables Start and the settings. */
    method StartRecording(sw: Recorder.StartWorld) returns (outcome: Recorder.StartOutcome, command: Option<seq<string>>)
      modifies this
      requires Valid()
      ensures Valid()
      ensures Snapshot() == LegacyApp.StartRec(old(Snapshot()), outputFolder, backend, sw)
      ensures outcome == Recorder.OutcomeOf(old(recordArea), sw)
      ensures command == LegacyApp.Launch(old(Snapshot()), outputFolder, backend, sw)
      ensures outcome != Recorder.Recording ==> startEnabled == old(startEnabled) && stopEnabled == old(stopEnabled)
      ensures palette == old(palette) && themeIndex == old(themeIndex)
    {
      videoPath := LegacyApp.VideoPath(outputFolder, backend, sw);
      var target := Resolve(recordArea, sw.monitor);
      if target.Refused? {
        outcome, command := Recorder.AreaRefused(target.reason), None;
        return;
      }
      command := Some(Encoder.CommandLine("ffmpeg", LegacyApp.GrabArgs(backend, sw.settings, target.region, videoPath)));
      if !sw.spawned {
        outcome := Recorder.SpawnFailed;
        return;
      }
      hasProcess := true;
      outcome := Recorder.Recording;
      ToggleWidgets(Disabled);
      StartTimer();
    }

    /** stop_recording, once the encoder has exited: Start and the settings come back. */
    method StopRecording()
      modifies this
      requires Valid()
      ensures Valid()
      ensures Snapshot() == LegacyApp.StopRec(old(Snapshot()))
      ensures startEnabled && !stopEnabled
      ensures palette == old(palette) && themeIndex == old(themeIndex)
    {
      if hasProcess {
        hasProcess := false;
        ToggleWidgets(Normal);
        StopTimer();
        recordArea := None;
      }
    }
  }
}
