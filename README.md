# Mini Screen Recorder, modelled in Dafny

This project models the recording logic of Mini Screen Recorder, written in
Python with Tk, and of its small browser recorder, and proves what that logic
promises.

- **The current Windows app** is `miniscreenrecorder.py`, class
  `ScreenRecorderApp`. It covers:
  - the area check and the ffmpeg gdigrab command of `start_recording`;
  - the part list that `stop_current_recording`, `on_monitor_change` and
    `stop_recording` keep;
  - the concat list and merge of `concat_video_parts`;
  - the elapsed-time counter;
  - the 100-line batching of the diagnostic reader.

  Module `Recorder` (file `recorder.dfy`) holds it. Every transition is a
  function on a `State` value, and each method of the class `Session` is
  proved to perform exactly that transition: its `ensures` says
  `Snapshot() == F(old(Snapshot()), ...)`. The properties are lemmas about
  those functions.
- **The helpers it uses** are:
  - area resolution: `Capture`;
  - the ffmpeg argument lists: `Encoder`;
  - the concat list and the diagnostic batching: `Segments`;
  - the counter and the `%H:%M:%S` label: `Timer`;
  - the area selector of `area_selector.py`: `Selector`;
  - the device listing of `audio_manager.py`: `Audio`;
  - the strings of `translation_manager.py`: `Translation`;
  - the decimal, split and escape functions of Python's `str`: `Text`.
- **The two older windows** are:
  - `main.py`, module `LegacyApp`: one encoder per recording, gdigrab on
    Windows and x11grab on Linux, the language chooser;
  - `MiniScreenRecorder.py`, module `OldestApp`: the same start and stop
    logic, plus Start and Stop buttons kept in opposite states, and the
    theme.

  Their start and stop code follows the same logic, so both classes are
  proved against the same `LegacyApp` functions. The two differ in their
  message texts and in how `toggle_widgets` is called.
- **The browser recorder** is `js/script.js`, module `Stopwatch`: the
  minutes-and-seconds stopwatch, the kept chunks, the stop-once flag and the
  download name.

The outside world comes in as parameters:

- the monitor, the widget settings and the clock readings used in file names;
- whether `Popen` succeeds;
- the file sizes on disk after an encoder exits;
- how the merge ends;
- the listing programs' output lines.

Here the code and the documented behaviour differ in how the error paths of
`miniscreenrecorder.py` end. An area refusal or a failed `Popen` calls
`stop_recording()` and `stop_timer()`, and then calls `toggle_widgets()`
without its required argument. That call raises `TypeError`. The model
follows the code: these paths end in the state that `stop_recording` plus
`stop_timer` leave (`Recorder.Aborted`), and nothing after them runs. That
means no encoder, no counting, no area, and any pending parts merged.

## Model

| member | source | states |
|---|---|---|
| Capture.EvenDown | miniscreenrecorder.py:457-458 | `d -= d % 2` on a positive size is even, lies in [d-1, d], and equals d exactly when d is even |
| Capture.Resolve | miniscreenrecorder.py:444-469 | No area: the monitor's origin and size. With an area: refused as invalid iff width or height <= 0; refused as adjusted-empty iff both > 0 and one is 1; otherwise the offsets are the area's top-left plus the monitor origin, and each size is even, positive and within one of the selection's |
| Capture.ResolveExamples | miniscreenrecorder.py:449-465 | 101 x 50 is grabbed as 100 x 50; 1 x 50 is refused after trimming |
| Encoder.CommandLine | miniscreenrecorder.py:472-473 | The command starts with the program path |
| Encoder.GdigrabTemplate | miniscreenrecorder.py:471-486 | The fixed gdigrab list of start_recording, with the frame rate, the offsets, the size and the monitor's input in their places; its offset, size and other options are read back by the GdigrabTemplate lemmas |
| Encoder.CaptureArgs | miniscreenrecorder.py:471-507 | The whole argument list of start_recording: the fixed list, the encoder options and the video path; its meaning is `CaptureArgsMeaning` |
| Encoder.LegacyGdigrabArgs | main.py:309-343 | The Windows list of main.py and MiniScreenRecorder.py; its meaning is `LegacyGdigrabMeaning` |
| Encoder.X11grabArgs | main.py:345-375 | The Linux list, with the screen input `<DISPLAY>+x,y` and the pulse device; its meaning is `X11grabMeaning` |
| Encoder.ConcatArgs | miniscreenrecorder.py:620-628 | The merge command's arguments; its meaning is `ConcatArgsMeaning` |
| Encoder.RenderEndsWithOutput | miniscreenrecorder.py:507 | A list whose last element is the output path renders to words ending with that path |
| Encoder.EncoderOptions | miniscreenrecorder.py:489-505 | `-c:v` comes first and `-b:v` last, with the chosen codec and bitrate each given once; "libx264" gets `-preset veryfast`, "libx265" `-preset medium`, any other codec no preset |
| Encoder.BuildCaptureArgs | miniscreenrecorder.py:472-507 | The fixed list, one of the three `extend` branches and the appended video path build exactly `CaptureArgs` |
| Encoder.CaptureOffsetX | miniscreenrecorder.py:476 | The command carries one `-offset_x`, and it reads back as the region's x offset |
| Encoder.CaptureOffsetY | miniscreenrecorder.py:477 | The same for `-offset_y` |
| Encoder.CaptureSize | miniscreenrecorder.py:478 | One `-video_size`, written `WxH` from the region |
| Encoder.SizeRoundTrip | miniscreenrecorder.py:478 | The `WxH` text reads back as the same width and height |
| Encoder.CaptureEncoding | miniscreenrecorder.py:489-507 | On the whole capture command the codec, bitrate and preset are the chosen ones, and the video path is the only output and the last word |
| Encoder.EncodingAfter | miniscreenrecorder.py:472-507 | The encoder options keep their meaning behind a fixed list that has none of them and no output |
| Encoder.CaptureArgsMeaning | miniscreenrecorder.py:472-507 | Everything the capture command tells ffmpeg: offsets and size read back as the region, codec, bitrate and preset as chosen, the output path last |
| Encoder.LegacyGdigrabMeaning | main.py:309-343 | The Windows command of the older apps: offsets and size read back, codec and bitrate as chosen, no preset, the output path last |
| Encoder.ScreenInputRoundTrip | main.py:352 | The x11grab input `<DISPLAY>+x,y` reads back as the same offsets, whatever the display is called |
| Encoder.X11grabMeaning | main.py:345-375 | The Linux command has no offset options; its inputs are exactly the screen input, which reads back as the region's offsets, and the unchanged pulse device; size and codec as chosen; the output path last |
| Encoder.ConcatArgsMeaning | miniscreenrecorder.py:620-628 | The merge reads only the list file, copies streams (`-c copy`, no `-c:v`), and writes one output, last |
| Segments.ManifestLine | miniscreenrecorder.py:618 | One `file '<path>'` line of the concat list |
| Segments.Manifest | miniscreenrecorder.py:616-618 | The list text, one line per part in order; `ManifestSnoc`, `WriteManifest` and `ManifestRoundTrip` state what it holds |
| Segments.Unquote | miniscreenrecorder.py:618 | How the concat demuxer reads a `file` entry: quotes toggle a literal run, so a path with a quote loses it (`QuoteDropped`) |
| Segments.ManifestSnoc | miniscreenrecorder.py:616-618 | One more part adds exactly its `file '<path>'` line at the end |
| Segments.WriteManifest | miniscreenrecorder.py:616-618 | The write loop produces the list text: one line per part, in order |
| Segments.ManifestRoundTrip | miniscreenrecorder.py:616-618 | Read as the concat demuxer reads it, the list names exactly the parts, in order, provided no path holds a quote or a newline |
| Segments.QuoteDropped | miniscreenrecorder.py:618 | A path with one quote is read without it, so the merge names a different file |
| Segments.BatchLines | miniscreenrecorder.py:583-597 | The lines are logged in order; every error batch holds exactly 100 lines; the final info batch holds 1 to 99 lines, or is absent; there are \|lines\| / 100 error batches |
| Timer.Update | miniscreenrecorder.py:695-700 | update_timer: one second more while running, nothing otherwise; `RunCounts` states what repeated updates do |
| Timer.Stop | miniscreenrecorder.py:688-693 | stop_timer: the count stays and the counting stops; `RunAfterStop` states that nothing moves afterwards |
| Timer.Run | miniscreenrecorder.py:695-700 | n seconds of scheduled updates; `RunCounts`, `RunAfterStart` and `RunAfterStop` state what it gives |
| Timer.Start | miniscreenrecorder.py:683-686 | After start_timer the counter runs and shows 1, because the first update runs at once |
| Timer.RunCounts | miniscreenrecorder.py:695-700 | n seconds of updates add n while running and nothing while stopped |
| Timer.RunAfterStart | miniscreenrecorder.py:683-700 | n seconds after a start the counter shows n + 1 |
| Timer.RunAfterStop | miniscreenrecorder.py:688-700 | After a stop, no time changes the counter |
| Timer.LabelText | miniscreenrecorder.py:698 | The label is eight characters, `HH:MM:SS` with colons at 2 and 5 |
| Timer.LabelTextRead | miniscreenrecorder.py:698 | Its three fields read back as the elapsed time within the day, since gmtime's hours wrap at 24 |
| Timer.QuickRestartCountsTwice | miniscreenrecorder.py:683-700 | Start, stop and start within one second leave two callback chains: the label shows 3 one second later, then gains 2 per second |
| Timer.CancellingKeepsSingleChain | miniscreenrecorder.py:683-700 | With the cancelling stop, start, stop and each second keep a single chain, and a second is exactly one update_timer |
| Timer.SecondsAreUpdates | miniscreenrecorder.py:695-700 | Under a single chain, n seconds equal n updates |
| Recorder.PathJoin | miniscreenrecorder.py:431 | The joined path ends with the file name |
| Recorder.PosixJoin | main.py:284-285 | Linux `os.path.join`: the path begins with the folder and ends with the name, with exactly one `/` between them when the folder is non-empty |
| Recorder.PosixJoinAddsNoBackslash | main.py:284-285 | The Linux join adds no backslash of its own |
| Recorder.CloseSegment | miniscreenrecorder.py:355-374 | stop_current_recording; its effects are stated by `CloseSegmentAppends` and `CloseWithoutProcess` |
| Recorder.MergedFiles | miniscreenrecorder.py:615-647 | The files after the list is written and the merge has run; `MergeEffects` and `SuccessfulMergeFiles` state what they hold |
| Recorder.Merge | miniscreenrecorder.py:610-647 | concat_video_parts; its effects are stated by `MergeEffects`, `MergeRequestLists` and `MergeWithoutParts` |
| Recorder.Closed | miniscreenrecorder.py:546-570 | The encoder closed by stop_recording, its part kept but not counted; `StopListsLastPart` states what it adds |
| Recorder.StopRec | miniscreenrecorder.py:545-579 | stop_recording; `StopEndsIdle`, `StopIsIdempotent` and `StopListsLastPart` state its effect |
| Recorder.Launch | miniscreenrecorder.py:444-507 | The command start_recording hands to Popen, none for a refused area; `StartFromIdle` and `RefusedAreaSpawnsNothing` state its shape |
| Recorder.Start | miniscreenrecorder.py:429-538 | start_recording; `StartFromIdle`, `RefusedAreaSpawnsNothing`, `SpawnFailureStops` and `StartKeepsConsistent` state its endings |
| Recorder.Aborted | miniscreenrecorder.py:452-453 | An error path's stop_recording followed by stop_timer; `RefusedAreaSpawnsNothing` and `SpawnFailureStops` state where it ends |
| Recorder.NewVideoFile | miniscreenrecorder.py:351-353 | create_new_video_file: the numbered part name joined onto the output folder |
| Recorder.MonitorChange | miniscreenrecorder.py:341-349 | on_monitor_change; `MonitorChangeWhileIdle`, `MonitorChangeContinues` and `MonitorChangeKeepsConsistent` state its effect |
| Recorder.Toggle | miniscreenrecorder.py:376-382 | toggle_recording; `ToggleKeepsConsistent` states what it keeps |
| Recorder.PathKinds | miniscreenrecorder.py:613-614 | Part paths are part paths; the merged video and the concat list never are |
| Recorder.CloseSegmentAppends | miniscreenrecorder.py:355-374 | With a process, closing keeps the old parts, appends the video path iff its file exists with size > 0, always adds 1 to the part count, and clears the process |
| Recorder.CloseWithoutProcess | miniscreenrecorder.py:356 | Without a process, stop_current_recording changes nothing |
| Recorder.MergeEffects | miniscreenrecorder.py:610-647 | A merge with parts always empties the list and zeroes the count. On success the merged file exists, and the list and every part are gone, nothing else touched. On failure the list file is added beside the parts |
| Recorder.MergedIsNew | miniscreenrecorder.py:613-614 | The merged video is neither the list file nor one of the parts |
| Recorder.SuccessfulMergeFiles | miniscreenrecorder.py:635-638 | Writing the merged file and then deleting the list and the parts leaves the merged file and all other files |
| Recorder.MergeRequestLists | miniscreenrecorder.py:611-628 | With parts, the merge runs on a list that reads back as exactly the parts, with the concat command over the list file and the merged path |
| Recorder.MergeWithoutParts | miniscreenrecorder.py:611 | With no parts, concat_video_parts writes nothing and runs nothing |
| Recorder.StopEndsIdle | miniscreenrecorder.py:545-579 | After stop_recording: no process, not running, no parts, no area, the count kept; the part count is zeroed when parts were merged |
| Recorder.StopIsIdempotent | miniscreenrecorder.py:545-579 | A second stop_recording changes nothing and asks for no merge |
| Recorder.StopListsLastPart | miniscreenrecorder.py:567-572 | Stopping merges the encoder's own non-empty part too, after the pending ones |
| Recorder.RefusedAreaSpawnsNothing | miniscreenrecorder.py:444-465 | A refused area builds no command and ends stopped: no process, no counting, no parts, no area |
| Recorder.SpawnFailureStops | miniscreenrecorder.py:509-532 | A failed Popen ends stopped in the same way |
| Recorder.StartFromIdle | miniscreenrecorder.py:429-538 | A successful start runs the encoder on a new part path with the counter at 1, and the command goes from the ffmpeg path to that part path |
| Recorder.MonitorChangeWhileIdle | miniscreenrecorder.py:341-345 | While not running, a monitor change changes nothing |
| Recorder.MonitorChangeContinues | miniscreenrecorder.py:341-349 | While recording, a monitor change keeps the count, counts the closed part, keeps it iff its file is non-empty, and records into a fresh part path |
| Recorder.ToggleKeepsConsistent | miniscreenrecorder.py:376-382 | toggle_recording keeps the session consistent: an encoder exactly while counting, parts only while recording and never more than counted, all of them part paths |
| Recorder.StartKeepsConsistent | miniscreenrecorder.py:429-538 | Every ending of start_recording leaves the session consistent |
| Recorder.MonitorChangeKeepsConsistent | miniscreenrecorder.py:341-349 | A monitor change keeps it consistent |
| Recorder.InitialConsistent | miniscreenrecorder.py:63-72 | The starting state is consistent |
| Recorder.Session.constructor | miniscreenrecorder.py:63-72 | The session starts with no parts, no process, not running and no area |
| Recorder.Session.SetRecordArea | miniscreenrecorder.py:395-398 | set_record_area stores the selection and changes nothing else |
| Recorder.Session.UpdateTimer | miniscreenrecorder.py:695-700 | Performs `Timer.Update` on the session's counter |
| Recorder.Session.StartTimer | miniscreenrecorder.py:683-686 | Performs `Timer.Start` |
| Recorder.Session.StopTimer | miniscreenrecorder.py:688-693 | Performs `Timer.Stop` |
| Recorder.Session.StopCurrentRecording | miniscreenrecorder.py:355-374 | Performs `CloseSegment` on the session |
| Recorder.Session.ConcatVideoParts | miniscreenrecorder.py:610-647 | Performs `Merge`, and returns the list text and command of `MergeRequestOf` |
| Recorder.Session.RemoveParts | miniscreenrecorder.py:636-638 | The deletion loop removes exactly the part files, and nothing else changes |
| Recorder.Session.StopRecording | miniscreenrecorder.py:545-579 | Performs `StopRec`, and returns the merge it asked for |
| Recorder.Session.Abort | miniscreenrecorder.py:452-453 | An error path's stop_recording then stop_timer, as `Aborted` |
| Recorder.Session.StartRecording | miniscreenrecorder.py:429-538 | Performs `Start`; returns the outcome of the area check and Popen, and the command built, if any |
| Recorder.Session.Launched | miniscreenrecorder.py:534-538 | The success path keeps the process and starts the counter unless it continues |
| Recorder.Session.CreateNewVideoFile | miniscreenrecorder.py:351-353 | Sets the numbered part name |
| Recorder.Session.StartNewRecording | miniscreenrecorder.py:347-349 | The numbered name, then a start that continues the counter |
| Recorder.Session.OnMonitorChange | miniscreenrecorder.py:341-345 | Performs `MonitorChange` |
| Recorder.Session.ToggleRecording | miniscreenrecorder.py:376-382 | Performs `Toggle` |
| Selector.Normalize | area_selector.py:52-60 | None iff the release shares the press's x or y; otherwise x1 < x2 and y1 < y2, the corners being those of press and release |
| Selector.NormalizeSymmetric | area_selector.py:57-59 | Swapping press and release, or the two y values, selects the same area |
| Selector.SelectedAreaIsValid | area_selector.py:57-59 | A selected area never fails start_recording's first check; it is refused only when a side is 1 |
| Selector.AreaSelector.constructor | area_selector.py:5-9 | No area, no rectangle, no guide lines |
| Selector.AreaSelector.SelectArea | area_selector.py:11-29 | A fresh, empty canvas; the stored fields are untouched |
| Selector.AreaSelector.Create | area_selector.py:39 | A canvas item gets a new identifier |
| Selector.AreaSelector.DeleteAll | area_selector.py:41-42 | Deleting items removes exactly those items from the canvas |
| Selector.AreaSelector.OnButtonPress | area_selector.py:31-34 | Remembers the corner and forgets the rectangle |
| Selector.AreaSelector.OnMouseDrag | area_selector.py:36-50 | The old rectangle and guide lines are deleted; a new rectangle and exactly two new guide lines are drawn, under the next three item identifiers |
| Selector.AreaSelector.CleanupAndClose | area_selector.py:66-73 | The rectangle and guide lines are deleted from the canvas while the fields keep them, the window is gone, and the callback gets exactly the current area; the area, the start point and the item counter stay |
| Selector.AreaSelector.OnButtonRelease | area_selector.py:52-60 | The normalised area is stored and delivered; the canvas loses the rectangle and the guide lines, and the rectangle, guide-line, start-point and item-counter fields stay |
| Selector.AreaSelector.CancelSelection | area_selector.py:62-64 | The callback gets None, whatever was selected before; the canvas loses the rectangle and the guide lines, and the rectangle, guide-line, start-point and item-counter fields stay |
| Audio.NamesDevice | audio_manager.py:35 | The test of the Windows loop: the line mentions "audio" and holds a double quote (`WindowsDevicesOfLine`) |
| Audio.WindowsDevices | audio_manager.py:34-38 | The devices of a dshow listing in line order; `WindowsDevicesAppend`, `WindowsDevicesOfLine` and `WindowsDevicesFromLines` state which |
| Audio.DeviceName | audio_manager.py:36 | `line.split('"')[1]` is the text after the first quote, up to the next quote or the end |
| Audio.CollectWindowsDevices | audio_manager.py:34-38 | The loop computes `WindowsDevices` |
| Audio.WindowsDevicesAppend | audio_manager.py:34-38 | Devices follow line order: two stretches of output list their devices one after the other |
| Audio.WindowsDevicesOfLine | audio_manager.py:35 | A single line yields a device exactly when it contains "audio" and a quote |
| Audio.WindowsDevicesFromLines | audio_manager.py:34-38 | Every device listed is the name on some such line |
| Audio.QuotedDevice | audio_manager.py:35-36 | The usual line yields the name between its first two quotes |
| Audio.OpenQuoteDevice | audio_manager.py:35-36 | With one quote, the name runs to the end of the line |
| Audio.NamesSource | audio_manager.py:71 | The test of the comprehension: the line holds `Name:` and a second word (`SourceLine`) |
| Audio.LinuxDevices | audio_manager.py:71 | At most one device per line, each a non-empty word without blanks |
| Audio.LinuxDevicesAppend | audio_manager.py:71 | The comprehension keeps line order |
| Audio.SourceLine | audio_manager.py:71 | pactl's tab-indented `Name: <source>` line yields the source name |
| Audio.GetAudioDevices | audio_manager.py:15-21 | Windows: the parsed listing, or empty when there is no bundled ffmpeg or the run fails (24-26, 46-51). Linux: the parsed `pactl` output. Other platforms: empty. It raises (None) only when `pactl` is missing |
| Audio.ListDevices | audio_manager.py:15-21 | The dispatch with the Windows loop computes `GetAudioDevices` |
| Audio.AudioManager.constructor | audio_manager.py:12-13 | Stores the first listing |
| Audio.AudioManager.RefreshDevices | audio_manager.py:88-89 | A fresh listing replaces the field; when the listing raises, the field is unchanged |
| Audio.NewAudioManager | audio_manager.py:12-13 | A manager exists exactly when the first listing does not raise, and it holds that listing |
| Translation.IsRtl | translation_manager.py:11-13 | Right to left exactly for "ar" |
| Translation.FoldSection | translation_manager.py:20-21 | read_file lower-cases every option name of a section (optionxform); each option keeps its value under its lower-cased name, and no other name appears |
| Translation.FoldNames | translation_manager.py:20-21 | The sections keep their names; each section's option names are lower-cased as in `FoldSection` |
| Translation.SettingsView | translation_manager.py:22-23 | `translation['Settings']` shows its own options and every [DEFAULT] option it does not override, each with the value from where it comes |
| Translation.Interpolate | translation_manager.py:22-23 | BasicInterpolation on read: a value without `%` reads as written |
| Translation.DoubledPercentsReadBack | translation_manager.py:22-23 | Every `%` written as `%%` reads back as one `%`, so the read undoes the doubling |
| Translation.PercentAtEnd | translation_manager.py:22-23 | A value ending in a lone `%` makes the read raise (InterpolationSyntaxError) |
| Translation.Rewrite | translation_manager.py:22-23 | One pass of the loop on a value: when it succeeds, the stored value reads without error and holds no backslash-n pair |
| Translation.RewriteWithoutPercent | translation_manager.py:22-23 | A value without `%` is rewritten to its unescaped text |
| Translation.PercentValuesFail | translation_manager.py:22-23 | "50%" raises on read; "50%%" reads as "50%", and writing that back raises (ValueError) |
| Translation.EscapedValueLoadsBack | translation_manager.py:22-23 | Text without `%` or backslash, written with backslash-n for its newlines, is rewritten to what it was |
| Translation.RewriteValues | translation_manager.py:22-23 | The loop over [Settings] when no value is refused: the same option names, each holding its rewritten value, which reads without error |
| Translation.Load | translation_manager.py:15-25 | FileNotFoundError iff there is no file, leaving an empty parser; DuplicateOption iff two option names of one section differ only in case; success iff the file is there, its names are distinct, it has [Settings] and every value seen there is rewritable; on success the folded file with [Settings] replaced by the rewritten view |
| Translation.Lookup | translation_manager.py:27-28 | t: the key itself when the section is missing or the lower-cased key is not seen under [Settings] |
| Translation.LookupIgnoresCase | translation_manager.py:27-28 | A found key is looked up lower-cased, so its case does not matter, and shows its value read through interpolation |
| Translation.MissingFileShowsKeys | translation_manager.py:18-28 | After a missing file, every key shows as itself |
| Translation.FoldedValue | translation_manager.py:20-23 | An option written under [Settings] in any case, or only under [DEFAULT], is seen under its lower-cased name with the value written |
| Translation.RewrittenView | translation_manager.py:22-23 | After the loop, [Settings] shows exactly the rewritten values: the rewritten defaults now stored there hide the raw ones |
| Translation.RewrittenLookup | translation_manager.py:22-28 | After the loop, a found key shows its rewritten value read once more, and that read does not raise |
| Translation.LoadedView | translation_manager.py:15-25 | After a successful load [Settings] shows the rewritten view of the folded file |
| Translation.LoadedLookupSucceeds | translation_manager.py:15-28 | After a successful load no t call raises |
| Translation.LoadedLookup | translation_manager.py:15-28 | After a successful load, an option written in any case under [Settings], or only under [DEFAULT], shows for a key of either case its rewritten value read once more, and its unescaped value when it holds no `%` |
| Translation.MixedCaseKeyFound | translation_manager.py:15-28 | A file whose [Settings] holds `language = <value>` without `%` loads, and `t("Language")` shows the unescaped value |
| Translation.TranslationManager.constructor | translation_manager.py:5-9 | The fields as __init__ sets them |
| Translation.TranslationManager.T | translation_manager.py:27-28 | t on the manager's parser is `Lookup` of it |
| Translation.TranslationManager.RewriteSettings | translation_manager.py:22-23 | The key loop succeeds iff every value seen under [Settings] is rewritable, and then stores `RewriteValues` of that view as [Settings]; otherwise the parser stays as read |
| Translation.TranslationManager.LoadTranslation | translation_manager.py:15-25 | Performs `Load` for the current language and returns its error |
| Translation.TranslationManager.ChangeLanguage | translation_manager.py:30-32 | The language changes and is reloaded; the right-to-left flag set in __init__ stays |
| Translation.NewTranslationManager | translation_manager.py:5-9 | A manager exists exactly when the first load succeeds; its flag is `IsRtl` of the language |
| Stopwatch.Tick | js/script.js:158-163 | A tick keeps the seconds below 60 and adds one second to minutes*60+seconds |
| Stopwatch.Ticks | js/script.js:154-163 | n ticks of the interval; `TicksCount` and `TicksFromZero` state what they read |
| Stopwatch.TicksCount | js/script.js:158-163 | After n ticks the seconds stay below 60 and minutes*60+seconds has grown by n |
| Stopwatch.TicksFromZero | js/script.js:154-163 | From the reset at 0:00, n ticks read n/60 minutes and n%60 seconds |
| Stopwatch.Display | js/script.js:172-177 | Below 10 a leading "0" before the digits; otherwise the number unchanged |
| Stopwatch.DisplayReads | js/script.js:172-177 | The shown text reads back as the number; seconds always show two digits |
| Stopwatch.NonEmpty | js/script.js:56-59 | Only chunks with size > 0 are kept, and each kept chunk arrived |
| Stopwatch.NonEmptyAppend | js/script.js:56-59 | The chunks are kept in arrival order |
| Stopwatch.NonEmptyKeepsData | js/script.js:56-59 | Every non-empty chunk is kept |
| Stopwatch.Sanitize | js/script.js:72 | The replacement keeps the length |
| Stopwatch.SanitizeMeaning | js/script.js:72 | Every ':' and '.' becomes '-'; every other character stays |
| Stopwatch.DownloadName | js/script.js:72-76 | The download name; `DownloadNameShape` states its form |
| Stopwatch.DownloadNameShape | js/script.js:72-76 | `recording-<timestamp>.webm`: its only dot is the extension's, and it keeps the timestamp's other characters |
| Stopwatch.BrowserRecorder.constructor | js/script.js:2-7 | The module's variables start cleared and at zero |
| Stopwatch.BrowserRecorder.StopClicked | js/script.js:40-42 | The stop button only sets the stop request; the watch, the interval, the recorder, the chunks and the download stay |
| Stopwatch.BrowserRecorder.StartCapture | js/script.js:134-152 | Clears the stop request and keeps the download. With a granted stream, the watch is reset to zero and ticking with `stopped` cleared, and the call count and the chunks start afresh. Otherwise (no getDisplayMedia) nothing else changes, the interval included |
| Stopwatch.BrowserRecorder.SecondPasses | js/script.js:154-170 | The tick applies while the interval is set, and not after clearInterval; the interval, the recorder, the stop flags, the call count, the chunks and the download stay |
| Stopwatch.BrowserRecorder.DataAvailable | js/script.js:56-65 | Appends non-empty data. On a pending request mediaRecorder.stop is called once, and never twice in one recording; the stop request, the watch, the interval, the recorder and the download stay |
| Stopwatch.BrowserRecorder.Stopped | js/script.js:67-81 | The chunks become the download under `DownloadName` and are emptied; the stopwatch stops; the stop request and the watch's reading stay |
| LegacyApp.VideoPath | main.py:284-285 | The video path ends with `Video.<stamp>.<format>`; on Linux it begins with the folder and has `/` just before the name |
| LegacyApp.VideoPathSeparator | main.py:284-285 | Onto a folder without a trailing separator, Linux joins with `/` and Windows with a backslash; on Linux no backslash appears that the folder or the name did not hold |
| LegacyApp.Launch | main.py:294-384 | The command handed to Popen, from "ffmpeg" with the platform's list; none for a refused area; `StartRecords` and `GrabArgsMeaning` state its shape |
| LegacyApp.StartRec | main.py:283-391 | start_recording; `RefusedAreaReturns`, `SpawnFailureReturns` and `StartRecords` state its endings |
| LegacyApp.StopRec | main.py:404-429 | stop_recording; `StopEffects` states its effect |
| LegacyApp.Toggle | main.py:221-227 | toggle_recording; `ToggleKeepsConsistent` states what it keeps |
| LegacyApp.RefusedAreaReturns | main.py:296-307 | A refused area returns before any command: only the video path changed |
| LegacyApp.SpawnFailureReturns | main.py:378-384 | A failed Popen returns before start_timer: the counter, process and area are unchanged |
| LegacyApp.StartRecords | main.py:283-389 | A spawned encoder: process recorded, counter running at 1, the command from "ffmpeg" over the platform's list to the video path joined for that platform |
| LegacyApp.GrabArgsMeaning | main.py:309-375 | Both platforms carry the size, codec and only output last. Windows passes the offsets as options with the bitrate and no preset. Linux has no offset options, the offsets inside the screen input and the audio device unchanged |
| LegacyApp.StopEffects | main.py:404-429 | No process: nothing changes, not even the counter. With one: process, counting and area are cleared, and a second stop changes nothing |
| LegacyApp.ToggleKeepsConsistent | main.py:221-227 | Start and stop keep process and counter together, so toggling from a running state always stops |
| LegacyApp.ListedDevices | main.py:234-256 | None exactly on an unsupported platform, where the method falls off its end |
| LegacyApp.ListingAgrees | main.py:234-256 | On Windows and Linux the same devices as `Audio.GetAudioDevices` for the same lines |
| LegacyApp.CollectLinuxDevices | main.py:250-256 | The `Name:` loop computes `Audio.LinuxDevices` |
| LegacyApp.ListAudioDevices | main.py:234-256 | The method with its two loops computes `ListedDevices`; get_audio_devices of MiniScreenRecorder.py:175-197 has the same logic and is modelled by it too |
| LegacyApp.LanguageCode | main.py:107-117 | The code is always one the combo knows |
| LegacyApp.LanguageComboRoundTrip | main.py:107-126 | The i-th entry maps to the i-th code, so the combo shows the chosen language after the reload |
| LegacyApp.UnknownLanguageIsEnglish | main.py:117 | Any other entry falls back to "en" |
| LegacyApp.LegacyRecorder.constructor | main.py:39-42 | The window starts idle |
| LegacyApp.LegacyRecorder.SetRecordArea | main.py:264-267 | Stores the selection |
| LegacyApp.LegacyRecorder.UpdateTimer | main.py:468-473 | Performs `Timer.Update` |
| LegacyApp.LegacyRecorder.StartTimer | main.py:459-462 | Performs `Timer.Start` |
| LegacyApp.LegacyRecorder.StopTimer | main.py:464-466 | Performs `Timer.Stop` |
| LegacyApp.LegacyRecorder.StartRecording | main.py:283-391 | Performs `StartRec` for the window's platform, with the outcome and the command of `Launch` |
| LegacyApp.LegacyRecorder.StopRecording | main.py:404-429 | Performs `StopRec` |
| LegacyApp.LegacyRecorder.ToggleRecording | main.py:221-227 | Performs `Toggle` for the window's platform |
| LegacyApp.LegacyRecorder.ChangeLanguage | main.py:105-117 | Loads `LanguageCode` of the entry; the right-to-left flag stays |
| OldestApp.ThemeOf | MiniScreenRecorder.py:72-76 | Only "dark" and "light" pick a palette |
| OldestApp.ThemeIndex | MiniScreenRecorder.py:83 | The combo index is a valid entry |
| OldestApp.ThemeComboRoundTrip | MiniScreenRecorder.py:435-437 | Each entry, lower-cased, picks its palette and shows the same entry again |
| OldestApp.StoredThemeShown | MiniScreenRecorder.py:72-83 | The combo shows Dark iff the stored theme is "dark", which is also the default; any other name keeps Tk's palette and shows Light |
| OldestApp.OldestRecorder.constructor | MiniScreenRecorder.py:146-151 | Stop starts disabled and Start enabled; the palette and combo follow the stored theme |
| OldestApp.OldestRecorder.SetTheme | MiniScreenRecorder.py:72-76 | Changes the palette only for a known name |
| OldestApp.OldestRecorder.ChangeTheme | MiniScreenRecorder.py:435-437 | The chosen entry's palette is applied |
| OldestApp.OldestRecorder.ToggleWidgets | MiniScreenRecorder.py:371-392 | Start and the settings take the state, and Stop is always the opposite |
| OldestApp.OldestRecorder.UpdateTimer | MiniScreenRecorder.py:406-411 | Performs `Timer.Update`, buttons untouched |
| OldestApp.OldestRecorder.StartTimer | MiniScreenRecorder.py:397-400 | Performs `Timer.Start` |
| OldestApp.OldestRecorder.StopTimer | MiniScreenRecorder.py:402-404 | Performs `Timer.Stop` |
| OldestApp.OldestRecorder.StartRecording | MiniScreenRecorder.py:223-331 | Performs `LegacyApp.StartRec` for the window's platform, keeping Start and Stop opposite and Stop enabled exactly while an encoder runs; the buttons stay on the error paths, and the palette and theme entry stay |
| OldestApp.OldestRecorder.StopRecording | MiniScreenRecorder.py:344-369 | Performs `LegacyApp.StopRec` and ends with Start enabled and Stop disabled; the palette and theme entry stay |
| Text.NatToString | miniscreenrecorder.py:475 | `str(n)`: non-empty digits with no leading zero |
| Text.IntToString | miniscreenrecorder.py:476-477 | `str(i)`: digits, with a '-' only in front of a negative number |
| Text.NatRoundTrip | miniscreenrecorder.py:475 | The digits of n read back as n |
| Text.IntRoundTrip | miniscreenrecorder.py:476-477 | The offsets written with `str` read back as the same integers |
| Text.TwoDigits | js/script.js:173-174 | Padded counts below 100 show two digits |
| Text.TwoDigitsRead | js/script.js:173-174 | The padded text reads back as the count |
| Text.Split | audio_manager.py:35-36 | `str.split(sep)`: never empty; more than one piece iff the separator occurs; no piece holds it |
| Text.JoinSplit | audio_manager.py:35-36 | Splitting loses nothing: joining the pieces gives the line back |
| Text.Tokens | audio_manager.py:71 | `str.split()`: non-empty words without whitespace |
| Text.TokensCoverText | audio_manager.py:71 | The words together spell the line without its whitespace |
| Text.UnescapeLeavesNoEscape | translation_manager.py:23 | No backslash-n pair is left after the replacement |
| Text.UnescapeEscape | translation_manager.py:23 | Unescaping undoes escaping for text without a backslash of its own |
| Text.Lower | MiniScreenRecorder.py:435-437 | `str.lower()` on ASCII letters: the same length, each upper-case letter replaced by its lower-case one and every other character kept |
| Text.LowerIdempotent | translation_manager.py:27-28 | Lower-casing twice is lower-casing once, so a lower-cased key is found as it is |

## Left out

- Widget layout, `messagebox` dialogs, status-label texts, `toggle_widgets` styling in `miniscreenrecorder.py` and `main.py`, the About window, the area preview window and `themes.py` are presentation only.
- The live preview thread of `miniscreenrecorder.py` needs mss, numpy, OpenCV and PIL, and is background concurrency.
- Process mechanics are replaced by their outcome: the encoder is gone, and the files it leaves are given as a size map. This covers `Popen`, the `q` on stdin, `wait` with its 5 s and 2 s timeouts, `terminate`, `kill`, `communicate` and pipe closing.
- The diagnostic reader thread runs beside the session. Only its 100-line batching is modelled (`Segments.BatchLines`); the log calls and the reader's own error handling are not.
- The volume filter value `volume/100` is float formatting. It is an opaque string in `Encoder.Settings`.
- `datetime.now()` and `toISOString()` readings are parameters (`stamp`, `isoTimestamp`), not clock reads.
- `os.path.abspath` in the concat list is taken as the identity, because every part path is already joined onto the absolute output folder.
- `Recorder.PathJoin` and `Recorder.PosixJoin` model Windows and Linux `os.path.join` for a plain file name only; they do not model drive letters or absolute second arguments. `miniscreenrecorder.py` is modelled with the Windows join, the platform its gdigrab grabber needs.
- config.ini reading and writing, `save_config`, `reload_ui`, the `os.execl` restart, opening the output folder, `get_ffmpeg_path`/`initialize_ffmpeg` probes and logging setup are file I/O.
- `_normalize_audio_device_name` rests on Python codec behaviour. The device name reaches the model already normalised.
- The unsupported-platform branch of `start_recording` in `main.py` and `MiniScreenRecorder.py` leaves `ffmpeg_args` unbound. The model has only the Windows and Linux grabbers (`LegacyApp.Backend`).
- `DISPLAY` is a parameter of the Linux grabber. An unset variable prints as "None".
- Audio.GetAudioDevices: a missing `pactl` raises FileNotFoundError; the model returns None there.
- The other listing failures besides a missing `pactl` are not separated: Windows only distinguishes "no listing" from the listing's lines.
- Recorder.Start: the `TypeError` raised by `toggle_widgets()` on the error paths is not modelled as an exception. The call ends after `stop_recording` and `stop_timer`, and the caller goes on.
- The size of the concat list file is counted in characters, not in encoded bytes.
- Recorder.Session: its counter is the callback-free `Timer.Clock`. That equals the source's behaviour only when a single `after` chain is scheduled (see Findings).
- The text of `toggle_btn` is not modelled.
- `handleRecord` called a second time without a stop leaves the first recorder running. The model has one recorder at a time.
- Selector.AreaSelector: `start_x` and `start_y` before the first press are 0 in the model, while the source has no such attribute then.
- Segments.ManifestRoundTrip requires paths without a quote or a newline. Segments.QuoteDropped shows what a quote does instead.
- Translation.Load: a `%(name)s` reference is kept as it is written instead of being replaced by the named option, and a reference to a missing option does not raise.
- Translation.Load: after DuplicateOptionError the parser is given as empty, whereas read_file keeps the sections and options it read before the clashing line; the model's sections have no order, so that partial parser is not modelled. The same holds for `Translation.TranslationManager.LoadTranslation` and `ChangeLanguage`.
- Recorder.Merge: only a failed merge (CalledProcessError) is modelled. A FileNotFoundError from `subprocess.run` or an OSError from `os.remove` escapes concat_video_parts before the parts are forgotten, and that ending is not modelled.
- Translation.Load: InterpolationSyntaxError on read and ValueError on write-back are one error, `InterpolationError`; DuplicateSectionError and the other parse errors of read_file are not modelled, because the file comes in already split into sections.
- Translation.Load: option names are lower-cased on ASCII letters only (`Text.Lower`), not by Python's full Unicode `str.lower`.
- Translation.TranslationManager.RewriteSettings: when a value is refused part-way through the loop, the source keeps the values already rewritten; the model leaves [Settings] as read.
- Translation.Lookup: the path `translations/<language>.ini` is written with `/` on every platform; it is only a key into the given files.
- `splitlines()` is not modelled: the listings come in as their list of lines.
- Recorder.PathKinds holds for the part name of `start_recording`. The numbered name of `create_new_video_file` is always replaced by it before an encoder runs.

## Findings

| source | as written | input that shows it | evidently intended | confidence | as-written member | corrected member |
|---|---|---|---|---|---|---|
| miniscreenrecorder.py:683-700 (the same in main.py:459-473 and MiniScreenRecorder.py:397-411) | `stop_timer` only clears `running` and leaves the pending `root.after(1000, update_timer)` scheduled. `start_timer` schedules a new chain at once. | start, stop, start again within one second: two chains run, so the label shows 3 one second later and then gains 2 per second | `stop_timer` cancels the pending callback (`after_cancel`), leaving one chain, so one second is one update | not executed | Timer.QuickRestartCountsTwice | Timer.CancellingKeepsSingleChain |
