/**
 * The recording session of miniscreenrecorder.py (class ScreenRecorderApp):
 * starting and stopping the encoder, closing a part when the monitor changes,
 * merging the parts into one video, and the elapsed-time counter.
 *
 * The state the methods change is summarised by `State`; every transition is a
 * function on `State`, and the `Session` class's methods are proved to perform
 * exactly those transitions. The outside world (the files the encoder leaves,
 * the clock readings used in names, whether a process could be started and how
 * the merge ends) comes in as parameters.
 */
module Recorder {
  import opened Wrappers
  import opened Text
  import opened Capture
  import opened Encoder
  import Timer
  import opened Segments

  // ---------------------------------------------------------------
  // Paths and names
  // ---------------------------------------------------------------

  /** Where the app keeps its videos, and the encoder it runs. */
  datatype Install = Install(outputFolder: string, ffmpegPath: string)

  /** `os.path.join(folder, name)` for a plain name on Windows. */
  function PathJoin(folder: string, name: string): (p: string)
    ensures |p| >= |name| && p[|p| - |name|..] == name
  {
    if |folder| == 0 then name
    else if folder[|folder| - 1] == '\\' || folder[|folder| - 1] == '/' then folder + name
    else folder + "\\" + name
  }

  /**
   * `os.path.join(folder, name)` on Linux (posixpath) for a name that does not
   * start with `/`: the folder, a `/` unless it is empty or already ends in
   * one, then the name.
   */
  function PosixJoin(folder: string, name: string): (p: string)
    ensures |p| >= |name| && p[|p| - |name|..] == name
    ensures |p| >= |folder| && p[..|folder|] == folder
    ensures |folder| > 0 ==> |p| == |folder| + |name| + (if folder[|folder| - 1] == '/' then 0 else 1)
    ensures |folder| > 0 ==> p[|p| - |name| - 1] == '/'
  {
    if |folder| == 0 || folder[|folder| - 1] == '/' then folder + name
    else folder + "/" + name
  }

  /** The Linux join adds no backslash: one in the path came from the folder or the name. */
  lemma {:induction false} PosixJoinAddsNoBackslash(folder: string, name: string)
    ensures '\\' in PosixJoin(folder, name) ==> '\\' in folder || '\\' in name
  {
    var p := PosixJoin(folder, name);
    if '\\' in p {
      var k :| 0 <= k < |p| && p[k] == '\\';
      if k < |folder| {
        assert folder[k] == p[k];
      } else if k >= |p| - |name| {
        assert name[k - (|p| - |name|)] == p[k];
      }
    }
  }

  /** `Video.<stamp>.<format>`: the name start_recording gives each part. */
  function PartName(stamp: string, format: string): string
  {
    "Video." + stamp + "." + format
  }

  /** `Video_part<n>.<stamp>.mkv`: the name create_new_video_file computes. */
  function NumberedPartName(index: nat, stamp: string): string
  {
    "Video_part" + NatToString(index) + "." + stamp + ".mkv"
  }

  /** `Video_<stamp>.<format>`: the merged video. */
  function MergedName(stamp: string, format: string): string
  {
    "Video_" + stamp + "." + format
  }

  function ListPath(inst: Install): string
  {
    PathJoin(inst.outputFolder, "concat_list.txt")
  }

  function PartPath(inst: Install, stamp: string, format: string): string
  {
    PathJoin(inst.outputFolder, PartName(stamp, format))
  }

  function MergedPath(inst: Install, stamp: string, format: string): string
  {
    PathJoin(inst.outputFolder, MergedName(stamp, format))
  }

  /** The paths of the output folder that name a part. */
  predicate IsPartPath(inst: Install, p: string)
  {
    var prefix := PathJoin(inst.outputFolder, "Video.");
    |prefix| <= |p| && p[..|prefix|] == prefix
  }

  /** What PathJoin puts before the name: the folder, with a separator when it lacks one. */
  function FolderPrefix(folder: string): string
  {
    if |folder| == 0 || folder[|folder| - 1] == '\\' || folder[|folder| - 1] == '/' then folder
    else folder + "\\"
  }

  lemma JoinPrefix(folder: string, name: string)
    ensures PathJoin(folder, name) == FolderPrefix(folder) + name
  {
  }

  /** Every part path is a part path; no merged video, and not the concat list, is one. */
  lemma PathKinds(inst: Install, stamp: string, format: string, mergeStamp: string, mergeFormat: string)
    ensures IsPartPath(inst, PartPath(inst, stamp, format))
    ensures !IsPartPath(inst, MergedPath(inst, mergeStamp, mergeFormat))
    ensures !IsPartPath(inst, ListPath(inst))
  {
    PartIsPart(inst, stamp, format);
    MergedIsNotPart(inst, mergeStamp, mergeFormat);
    ListIsNotPart(inst);
  }

  lemma PartIsPart(inst: Install, stamp: string, format: string)
    ensures IsPartPath(inst, PartPath(inst, stamp, format))
  {
    var f := FolderPrefix(inst.outputFolder);
    JoinPrefix(inst.outputFolder, "Video.");
    JoinPrefix(inst.outputFolder, PartName(stamp, format));
    var p := PartPath(inst, stamp, format);
    assert p == (f + "Video.") + (stamp + "." + format);
    assert p[..|f| + 6] == f + "Video.";
  }

  lemma MergedIsNotPart(inst: Install, stamp: string, format: string)
    ensures !IsPartPath(inst, MergedPath(inst, stamp, format))
  {
    var f := FolderPrefix(inst.outputFolder);
    JoinPrefix(inst.outputFolder, "Video.");
    JoinPrefix(inst.outputFolder, MergedName(stamp, format));
    var p := MergedPath(inst, stamp, format);
    assert p == f + ("Video_" + stamp + "." + format);
    assert p[|f| + 5] == '_' && (f + "Video.")[|f| + 5] == '.';
  }

  lemma ListIsNotPart(inst: Install)
    ensures !IsPartPath(inst, ListPath(inst))
  {
    var f := FolderPrefix(inst.outputFolder);
    JoinPrefix(inst.outputFolder, "Video.");
    JoinPrefix(inst.outputFolder, "concat_list.txt");
    var p := ListPath(inst);
    assert p == f + "concat_list.txt";
    assert p[|f|] == 'c' && (f + "Video.")[|f|] == 'V';
  }

  // ---------------------------------------------------------------
  // The session state and the world around it
  // ---------------------------------------------------------------

  /**
   * `parts` are the closed parts still to be merged (video_parts), `partIndex`
   * is current_video_part, `hasProcess` says whether an encoder is running
   * (recording_process is not None), `clock` holds `running` and
   * elapsed_time, and `files` are the sizes of the files on disk.
   */
  datatype State = State(parts: seq<string>, partIndex: nat, hasProcess: bool, clock: Timer.Clock,
                         recordArea: Option<Rect>, videoPath: string, files: map<string, nat>)

  /** How a merge run ends: ffmpeg writes the output of the given size, or exits with an error. */
  datatype MergeOutcome = MergeSucceeded(outputSize: nat) | MergeFailed

  /**
   * What happens around a stop: the files once the encoder has exited, the
   * clock reading and format used to name the merged video, and the merge's end.
   */
  datatype StopWorld = StopWorld(filesAfterExit: map<string, nat>, stamp: string, format: string,
                                 merge: MergeOutcome)

  /** What a start reads: the chosen monitor and settings, the clock reading, and whether Popen succeeds. */
  datatype StartWorld = StartWorld(monitor: Monitor, settings: Settings, stamp: string, spawned: bool)

  /** How start_recording ends: recording, or one of its three error paths. */
  datatype StartOutcome = Recording | AreaRefused(reason: AreaError) | SpawnFailed

  /** The list file written for a merge and the command run on it. */
  datatype MergeRequest = MergeRequest(listText: string, command: seq<string>)

  function Initial(files: map<string, nat>): State
  {
    State([], 0, false, Timer.Clock(false, 0), None, "", files)
  }

  /** The files that remain after deleting `gone`. */
  function Without(files: map<string, nat>, gone: set<string>): (r: map<string, nat>)
    ensures forall p :: p in r <==> p in files && p !in gone
    ensures forall p :: p in r ==> r[p] == files[p]
  {
    map p | p in files && p !in gone :: files[p]
  }

  /** A closed part is kept only when its file exists and is not empty. */
  function Kept(s: State, after: map<string, nat>): seq<string>
  {
    if s.videoPath in after && after[s.videoPath] > 0 then s.parts + [s.videoPath] else s.parts
  }

  /** stop_current_recording: close the encoder, keep its file as a part, count the part. */
  function CloseSegment(s: State, after: map<string, nat>): State
  {
    if !s.hasProcess then s
    else s.(parts := Kept(s, after), partIndex := s.partIndex + 1, hasProcess := false, files := after)
  }

  function Elements(parts: seq<string>): set<string>
  {
    set p | p in parts
  }

  /** The files after the list is written and the merge has run. */
  function MergedFiles(s: State, inst: Install, w: StopWorld): map<string, nat>
  {
    var written := s.files[ListPath(inst) := |Manifest(s.parts)|];
    match w.merge
    case MergeSucceeded(size) =>
      Without(written[MergedPath(inst, w.stamp, w.format) := size], {ListPath(inst)} + Elements(s.parts))
    case MergeFailed => written
  }

  /** concat_video_parts: with parts, write the list, run the merge, and forget the parts. */
  function Merge(s: State, inst: Install, w: StopWorld): State
  {
    if |s.parts| == 0 then s
    else s.(parts := [], partIndex := 0, files := MergedFiles(s, inst, w))
  }

  /** The list and command concat_video_parts hands to ffmpeg, if it runs at all. */
  function MergeRequestOf(s: State, inst: Install, w: StopWorld): Option<MergeRequest>
  {
    if |s.parts| == 0 then None
    else Some(MergeRequest(Manifest(s.parts),
                           CommandLine(inst.ffmpegPath, ConcatArgs(ListPath(inst), MergedPath(inst, w.stamp, w.format)))))
  }

  /** The encoder closed by stop_recording: its file is kept as a part, but the part is not counted. */
  function Closed(s: State, w: StopWorld): State
  {
    if s.hasProcess then s.(parts := Kept(s, w.filesAfterExit), hasProcess := false, files := w.filesAfterExit)
    else s
  }

  /** stop_recording: close the encoder, merge, stop the counter and forget the area. */
  function StopRec(s: State, inst: Install, w: StopWorld): State
  {
    var merged := Merge(Closed(s, w), inst, w);
    merged.(clock := Timer.Stop(merged.clock), recordArea := None)
  }

  /** The merge stop_recording asks for. */
  function StopRequest(s: State, inst: Install, w: StopWorld): Option<MergeRequest>
  {
    MergeRequestOf(Closed(s, w), inst, w)
  }

  /** How a start ends, decided by the area check and by Popen. */
  function OutcomeOf(area: Option<Rect>, sw: StartWorld): StartOutcome
  {
    match Resolve(area, sw.monitor)
    case Refused(e) => AreaRefused(e)
    case Captured(_) => if sw.spawned then Recording else SpawnFailed
  }

  /** The capture command start_recording hands to Popen; none when the area is refused. */
  function Launch(s: State, inst: Install, sw: StartWorld): Option<seq<string>>
  {
    match Resolve(s.recordArea, sw.monitor)
    case Refused(_) => None
    case Captured(r) =>
      Some(CommandLine(inst.ffmpegPath, CaptureArgs(sw.settings, r, PartPath(inst, sw.stamp, sw.settings.format))))
  }

  /**
   * start_recording: name a new part; on success the encoder runs and, unless
   * the count continues, the counter starts; on each error path the recording
   * is stopped as by stop_recording and stop_timer, and the call ends there.
   */
  function Start(s: State, inst: Install, continueTimer: bool, sw: StartWorld, w: StopWorld): State
  {
    var named := s.(videoPath := PartPath(inst, sw.stamp, sw.settings.format));
    if OutcomeOf(s.recordArea, sw) == Recording then
      named.(hasProcess := true, clock := if continueTimer then s.clock else Timer.Start())
    else Aborted(named, inst, w)
  }

  /** An error path of start_recording: stop_recording, then stop_timer. */
  function Aborted(s: State, inst: Install, w: StopWorld): State
  {
    var stopped := StopRec(s, inst, w);
    stopped.(clock := Timer.Stop(stopped.clock))
  }

  /** create_new_video_file: the numbered name of the next part. */
  function NewVideoFile(s: State, inst: Install, stamp: string): State
  {
    s.(videoPath := PathJoin(inst.outputFolder, NumberedPartName(s.partIndex, stamp)))
  }

  /** on_monitor_change: while recording, close the part and start the next one on the counter that runs on. */
  function MonitorChange(s: State, inst: Install, after: map<string, nat>, partStamp: string,
                         sw: StartWorld, w: StopWorld): State
  {
    if !s.clock.running then s
    else Start(NewVideoFile(CloseSegment(s, after), inst, partStamp), inst, true, sw, w)
  }

  /** toggle_recording. */
  function Toggle(s: State, inst: Install, sw: StartWorld, w: StopWorld): State
  {
    if !s.clock.running then Start(s, inst, false, sw, w) else StopRec(s, inst, w)
  }

  // ---------------------------------------------------------------
  // What the transitions promise
  // ---------------------------------------------------------------

  /**
   * Between user actions: an encoder runs exactly while the counter runs,
   * parts are pending only while recording and never outnumber the parts
   * counted, and every pending part, and the running encoder's file, is a
   * part path of the output folder.
   */
  ghost predicate Consistent(inst: Install, s: State)
  {
    && s.hasProcess == s.clock.running
    && (!s.clock.running ==> s.parts == [])
    && |s.parts| <= s.partIndex
    && (s.hasProcess ==> IsPartPath(inst, s.videoPath))
    && (forall k :: 0 <= k < |s.parts| ==> IsPartPath(inst, s.parts[k]))
  }

  /** Closing a part appends it exactly when the file exists and is non-empty, and always counts it. */
  lemma CloseSegmentAppends(s: State, after: map<string, nat>)
    requires s.hasProcess
    ensures var t := CloseSegment(s, after);
      && !t.hasProcess && t.partIndex == s.partIndex + 1 && t.files == after
      && t.parts[..|s.parts|] == s.parts
      && (|t.parts| == |s.parts| + 1 <==> s.videoPath in after && after[s.videoPath] > 0)
      && (|t.parts| == |s.parts| + 1 ==> t.parts[|s.parts|] == s.videoPath)
      && |t.parts| <= |s.parts| + 1
  {
    var t := CloseSegment(s, after);
    assert t.parts[..|s.parts|] == s.parts;
  }

  /** Closing without an encoder changes nothing. */
  lemma CloseWithoutProcess(s: State, after: map<string, nat>)
    requires !s.hasProcess
    ensures CloseSegment(s, after) == s
  {
  }

  /**
   * Both ends of a merge forget the parts and reset the count; a successful
   * merge leaves the merged video and removes the list and every part file,
   * touching nothing else; a failed one leaves the list beside the parts.
   */
  lemma MergeEffects(s: State, inst: Install, w: StopWorld)
    requires |s.parts| > 0
    requires forall k :: 0 <= k < |s.parts| ==> IsPartPath(inst, s.parts[k])
    ensures var t := Merge(s, inst, w);
      && t.parts == [] && t.partIndex == 0
      && t.hasProcess == s.hasProcess && t.clock == s.clock && t.videoPath == s.videoPath
      && (w.merge.MergeSucceeded? ==>
            && MergedPath(inst, w.stamp, w.format) in t.files
            && t.files[MergedPath(inst, w.stamp, w.format)] == w.merge.outputSize
            && ListPath(inst) !in t.files
            && (forall k :: 0 <= k < |s.parts| ==> s.parts[k] !in t.files)
            && (forall p :: (p in s.files && p !in s.parts && p != ListPath(inst)
                             && p != MergedPath(inst, w.stamp, w.format)) ==> p in t.files && t.files[p] == s.files[p]))
      && (w.merge.MergeFailed? ==> t.files == s.files[ListPath(inst) := |Manifest(s.parts)|])
  {
    var out := MergedPath(inst, w.stamp, w.format);
    MergedIsNew(inst, s.parts, w.stamp, w.format);
    if w.merge.MergeSucceeded? {
      SuccessfulMergeFiles(s.files, ListPath(inst), out, w.merge.outputSize, s.parts, |Manifest(s.parts)|);
    }
  }

  /** The merged video is neither the list nor one of the parts. */
  lemma MergedIsNew(inst: Install, parts: seq<string>, stamp: string, format: string)
    requires forall k :: 0 <= k < |parts| ==> IsPartPath(inst, parts[k])
    ensures MergedPath(inst, stamp, format) != ListPath(inst)
    ensures MergedPath(inst, stamp, format) !in parts
  {
    var f := FolderPrefix(inst.outputFolder);
    var out := MergedPath(inst, stamp, format);
    JoinPrefix(inst.outputFolder, "Video.");
    JoinPrefix(inst.outputFolder, "concat_list.txt");
    JoinPrefix(inst.outputFolder, MergedName(stamp, format));
    assert out == f + ("Video_" + stamp + "." + format);
    assert out[|f|] == 'V' && ListPath(inst)[|f|] == 'c';
    MergedIsNotPart(inst, stamp, format);
    forall k | 0 <= k < |parts|
      ensures parts[k] != out
    {
      assert IsPartPath(inst, parts[k]);
    }
  }

  /** Deleting the list and the parts after writing the merged video leaves that video and every other file. */
  lemma SuccessfulMergeFiles(files: map<string, nat>, list: string, out: string, size: nat,
                             parts: seq<string>, n: nat)
    requires out != list && out !in parts
    ensures var r := Without(files[list := n][out := size], {list} + Elements(parts));
      && out in r && r[out] == size && list !in r
      && (forall k :: 0 <= k < |parts| ==> parts[k] !in r)
      && (forall p :: (p in files && p !in parts && p != list && p != out) ==> p in r && r[p] == files[p])
  {
    assert forall k :: 0 <= k < |parts| ==> parts[k] in Elements(parts);
  }

  /** The merge asked for lists exactly the pending parts, and reads back as them. */
  lemma MergeRequestLists(s: State, inst: Install, w: StopWorld)
    requires |s.parts| > 0
    requires forall k :: 0 <= k < |s.parts| ==> '\'' !in s.parts[k] && '\n' !in s.parts[k]
    ensures MergeRequestOf(s, inst, w).Some?
    ensures ReadManifest(MergeRequestOf(s, inst, w).value.listText) == s.parts
    ensures var a := ConcatArgs(ListPath(inst), MergedPath(inst, w.stamp, w.format));
      MergeRequestOf(s, inst, w).value.command == CommandLine(inst.ffmpegPath, a)
      && OptionIs(a, Input, ListPath(inst)) && OnlyOutput(a, MergedPath(inst, w.stamp, w.format))
  {
    ManifestRoundTrip(s.parts);
    ConcatArgsMeaning(ListPath(inst), MergedPath(inst, w.stamp, w.format));
  }

  /** Without parts nothing is written and nothing runs. */
  lemma MergeWithoutParts(s: State, inst: Install, w: StopWorld)
    requires s.parts == []
    ensures Merge(s, inst, w) == s && MergeRequestOf(s, inst, w) == None
  {
  }

  /**
   * After stop_recording nothing records: no encoder, no counting, no parts
   * and no area; the count shown stays where it was.
   */
  lemma StopEndsIdle(s: State, inst: Install, w: StopWorld)
    ensures var t := StopRec(s, inst, w);
      && !t.hasProcess && !t.clock.running && t.clock.elapsed == s.clock.elapsed
      && t.parts == [] && t.recordArea == None
      && (|Closed(s, w).parts| > 0 ==> t.partIndex == 0)
      && (|Closed(s, w).parts| == 0 ==> t.partIndex == s.partIndex)
  {
  }

  /** A second stop_recording finds nothing to do. */
  lemma StopIsIdempotent(s: State, inst: Install, w1: StopWorld, w2: StopWorld)
    ensures StopRec(StopRec(s, inst, w1), inst, w2) == StopRec(s, inst, w1)
    ensures StopRequest(StopRec(s, inst, w1), inst, w2) == None
  {
    StopEndsIdle(s, inst, w1);
    var t := StopRec(s, inst, w1);
    assert Closed(t, w2) == t;
    MergeWithoutParts(t, inst, w2);
  }

  /**
   * Stopping a recording merges its last part too: the list names the pending
   * parts followed by the encoder's file when that file is not empty.
   */
  lemma StopListsLastPart(s: State, inst: Install, w: StopWorld)
    requires s.hasProcess
    requires s.videoPath in w.filesAfterExit && w.filesAfterExit[s.videoPath] > 0
    requires forall k :: 0 <= k < |s.parts| ==> '\'' !in s.parts[k] && '\n' !in s.parts[k]
    requires '\'' !in s.videoPath && '\n' !in s.videoPath
    ensures StopRequest(s, inst, w).Some?
    ensures ReadManifest(StopRequest(s, inst, w).value.listText) == s.parts + [s.videoPath]
  {
    var c := Closed(s, w);
    assert c.parts == s.parts + [s.videoPath];
    MergeRequestLists(c, inst, w);
  }

  /** A refused area spawns nothing and leaves the session stopped, whatever was pending merged. */
  lemma RefusedAreaSpawnsNothing(s: State, inst: Install, continueTimer: bool, sw: StartWorld, w: StopWorld)
    requires Resolve(s.recordArea, sw.monitor).Refused?
    ensures Launch(s, inst, sw) == None
    ensures OutcomeOf(s.recordArea, sw) == AreaRefused(Resolve(s.recordArea, sw.monitor).reason)
    ensures var t := Start(s, inst, continueTimer, sw, w);
      !t.hasProcess && !t.clock.running && t.parts == [] && t.recordArea == None
  {
    StopEndsIdle(s.(videoPath := PartPath(inst, sw.stamp, sw.settings.format)), inst, w);
  }

  /** A failed Popen leaves the session stopped as well. */
  lemma SpawnFailureStops(s: State, inst: Install, continueTimer: bool, sw: StartWorld, w: StopWorld)
    requires Resolve(s.recordArea, sw.monitor).Captured? && !sw.spawned
    ensures Launch(s, inst, sw).Some? && OutcomeOf(s.recordArea, sw) == SpawnFailed
    ensures var t := Start(s, inst, continueTimer, sw, w);
      !t.hasProcess && !t.clock.running && t.parts == [] && t.recordArea == None
  {
    StopEndsIdle(s.(videoPath := PartPath(inst, sw.stamp, sw.settings.format)), inst, w);
  }

  /**
   * A start from idle that succeeds runs the encoder on a part path, with the
   * counter showing 1, and the command grabs the resolved region into that path.
   */
  lemma StartFromIdle(s: State, inst: Install, sw: StartWorld, w: StopWorld)
    requires OutcomeOf(s.recordArea, sw) == Recording
    ensures var t := Start(s, inst, false, sw, w);
      && t.hasProcess && t.clock == Timer.Clock(true, 1)
      && t.videoPath == PartPath(inst, sw.stamp, sw.settings.format) && IsPartPath(inst, t.videoPath)
      && t.parts == s.parts && t.partIndex == s.partIndex && t.recordArea == s.recordArea
    ensures Launch(s, inst, sw).Some?
    ensures var cmd := Launch(s, inst, sw).value;
      cmd[0] == inst.ffmpegPath && cmd[|cmd| - 1] == PartPath(inst, sw.stamp, sw.settings.format)
  {
    var path := PartPath(inst, sw.stamp, sw.settings.format);
    PartIsPart(inst, sw.stamp, sw.settings.format);
    assert Start(s, inst, false, sw, w) == s.(videoPath := path, hasProcess := true, clock := Timer.Start());
    var a := CaptureArgs(sw.settings, Resolve(s.recordArea, sw.monitor).region, path);
    assert a[|a| - 1] == Output(path);
    RenderEndsWithOutput(a, path);
  }

  /** While idle, a monitor change only changes the selection. */
  lemma MonitorChangeWhileIdle(s: State, inst: Install, after: map<string, nat>, partStamp: string,
                               sw: StartWorld, w: StopWorld)
    requires !s.clock.running
    ensures MonitorChange(s, inst, after, partStamp, sw, w) == s
  {
  }

  /**
   * While recording, a monitor change that restarts the encoder keeps the
   * count running where it was, counts the closed part, keeps its file when
   * it is not empty, and records into a fresh part path (the numbered name
   * of create_new_video_file is replaced at once).
   */
  lemma MonitorChangeContinues(s: State, inst: Install, after: map<string, nat>, partStamp: string,
                               sw: StartWorld, w: StopWorld)
    requires s.clock.running && s.hasProcess
    requires OutcomeOf(s.recordArea, sw) == Recording
    ensures var t := MonitorChange(s, inst, after, partStamp, sw, w);
      && t.clock == s.clock && t.hasProcess
      && t.partIndex == s.partIndex + 1
      && t.parts == Kept(s, after)
      && t.videoPath == PartPath(inst, sw.stamp, sw.settings.format)
  {
  }

  /** Every transition between user actions keeps the session consistent. */
  lemma ToggleKeepsConsistent(inst: Install, s: State, sw: StartWorld, w: StopWorld)
    requires Consistent(inst, s)
    ensures Consistent(inst, Toggle(s, inst, sw, w))
  {
    if !s.clock.running {
      StartKeepsConsistent(inst, s, false, sw, w);
    } else {
      StopEndsIdle(s, inst, w);
    }
  }

  lemma StartKeepsConsistent(inst: Install, s: State, continueTimer: bool, sw: StartWorld, w: StopWorld)
    requires !s.hasProcess && |s.parts| <= s.partIndex
    requires forall k :: 0 <= k < |s.parts| ==> IsPartPath(inst, s.parts[k])
    requires continueTimer ==> s.clock.running
    requires !continueTimer ==> s.parts == []
    ensures Consistent(inst, Start(s, inst, continueTimer, sw, w))
  {
    var named := s.(videoPath := PartPath(inst, sw.stamp, sw.settings.format));
    if OutcomeOf(s.recordArea, sw) == Recording {
      PartIsPart(inst, sw.stamp, sw.settings.format);
    } else {
      StopEndsIdle(named, inst, w);
    }
  }

  lemma MonitorChangeKeepsConsistent(inst: Install, s: State, after: map<string, nat>, partStamp: string,
                                     sw: StartWorld, w: StopWorld)
    requires Consistent(inst, s)
    ensures Consistent(inst, MonitorChange(s, inst, after, partStamp, sw, w))
  {
    if s.clock.running {
      var c := CloseSegment(s, after);
      CloseSegmentAppends(s, after);
      assert forall k :: 0 <= k < |c.parts| ==> IsPartPath(inst, c.parts[k]) by {
        forall k | 0 <= k < |c.parts|
          ensures IsPartPath(inst, c.parts[k])
        {
          if k < |s.parts| {
            assert c.parts[k] == c.parts[..|s.parts|][k];
          }
        }
      }
      StartKeepsConsistent(inst, NewVideoFile(c, inst, partStamp), true, sw, w);
    }
  }

  lemma InitialConsistent(inst: Install, files: map<string, nat>)
    ensures Consistent(inst, Initial(files))
  {
  }

  // ---------------------------------------------------------------
  // The session object
  // ---------------------------------------------------------------

  class Session {
    const install: Install
    var parts: seq<string>
    var partIndex: nat
    var hasProcess: bool
    var running: bool
    var elapsedTime: nat
    var recordArea: Option<Rect>
    var videoPath: string
    var files: map<string, nat>

    function Snapshot(): State
      reads this
    {
      State(parts, partIndex, hasProcess, Timer.Clock(running, elapsedTime), recordArea, videoPath, files)
    }

    /** The session fields set up by __init__, over the files already on disk. */
    constructor (install: Install, files: map<string, nat>)
      ensures this.install == install && Snapshot() == Initial(files)
    {
      this.install := install;
      parts := [];
      partIndex := 0;
      hasProcess := false;
      running := false;
      elapsedTime := 0;
      recordArea := None;
      videoPath := "";
      this.files := files;
    }

    /** set_record_area: the selector's result, or None when it was cancelled. */
    method SetRecordArea(area: Option<Rect>)
      modifies this
      ensures Snapshot() == old(Snapshot()).(recordArea := area)
    {
      recordArea := area;
    }

    method UpdateTimer()
      modifies this
      ensures Snapshot() == old(Snapshot()).(clock := Timer.Update(old(Snapshot()).clock))
    {
      if running {
        elapsedTime := elapsedTime + 1;
      }
    }

    method StartTimer()
      modifies this
      ensures Snapshot() == old(Snapshot()).(clock := Timer.Start())
    {
      running := true;
      elapsedTime := 0;
      UpdateTimer();
    }

    method StopTimer()
      modifies this
      ensures Snapshot() == old(Snapshot()).(clock := Timer.Stop(old(Snapshot()).clock))
    {
      running := false;
    }

    /** stop_current_recording, given the files once the encoder has exited. */
    method StopCurrentRecording(after: map<string, nat>)
      modifies this
      ensures Snapshot() == CloseSegment(old(Snapshot()), after)
    {
      if hasProcess {
        files := after;
        if videoPath in files && files[videoPath] > 0 {
          parts := parts + [videoPath];
        }
        partIndex := partIndex + 1;
        hasProcess := false;
      }
    }

    /** concat_video_parts: returns the list written and the command run, if any. */
    method ConcatVideoParts(w: StopWorld) returns (request: Option<MergeRequest>)
      modifies this
      ensures Snapshot() == Merge(old(Snapshot()), install, w)
      ensures request == MergeRequestOf(old(Snapshot()), install, w)
    {
      ghost var s0 := Snapshot();
      if |parts| > 0 {
        var listFile := ListPath(install);
        var outputFile := MergedPath(install, w.stamp, w.format);
        var text := WriteManifest(parts);
        files := files[listFile := |text|];
        request := Some(MergeRequest(text, CommandLine(install.ffmpegPath, ConcatArgs(listFile, outputFile))));
        if w.merge.MergeSucceeded? {
          files := files[outputFile := w.merge.outputSize];
          files := files - {listFile};
          RemoveParts();
          assert files == MergedFiles(s0, install, w);
        }
        parts := [];
        partIndex := 0;
      } else {
        request := None;
      }
    }

    /** The deletion loop of a successful merge: each part file that exists is removed. */
    method RemoveParts()
      modifies this
      ensures files == Without(old(files), Elements(parts))
      ensures parts == old(parts) && partIndex == old(partIndex) && hasProcess == old(hasProcess)
      ensures running == old(running) && elapsedTime == old(elapsedTime)
      ensures recordArea == old(recordArea) && videoPath == old(videoPath)
    {
      ghost var start := files;
      var i := 0;
      while i < |parts|
        invariant 0 <= i <= |parts|
        invariant files == Without(start, Elements(parts[..i]))
        invariant unchanged(`parts, `partIndex, `hasProcess, `running, `elapsedTime, `recordArea, `videoPath)
      {
        assert Elements(parts[..i + 1]) == Elements(parts[..i]) + {parts[i]} by {
          assert parts[..i + 1] == parts[..i] + [parts[i]];
        }
        if parts[i] in files {
          files := files - {parts[i]};
        }
        i := i + 1;
      }
      assert parts[..i] == parts;
    }

    /** stop_recording: returns the merge it asked for, if any. */
    method StopRecording(w: StopWorld) returns (request: Option<MergeRequest>)
      modifies this
      ensures Snapshot() == StopRec(old(Snapshot()), install, w)
      ensures request == StopRequest(old(Snapshot()), install, w)
    {
      if hasProcess {
        files := w.filesAfterExit;
        if videoPath in files && files[videoPath] > 0 {
          parts := parts + [videoPath];
        }
        hasProcess := false;
      }
      request := ConcatVideoParts(w);
      StopTimer();
      recordArea := None;
      running := false;
    }

    /** The error paths' stop_recording and stop_timer. */
    method Abort(w: StopWorld)
      modifies this
      ensures Snapshot() == Aborted(old(Snapshot()), install, w)
    {
      var _ := StopRecording(w);
      StopTimer();
    }

    /** start_recording: returns how it ended and the command handed to Popen, if one was built. */
    method StartRecording(continueTimer: bool, sw: StartWorld, w: StopWorld)
      returns (outcome: StartOutcome, command: Option<seq<string>>)
      modifies this
      ensures Snapshot() == Start(old(Snapshot()), install, continueTimer, sw, w)
      ensures outcome == OutcomeOf(old(recordArea), sw)
      ensures command == Launch(old(Snapshot()), install, sw)
    {
      ghost var s := Snapshot();
      videoPath := PartPath(install, sw.stamp, sw.settings.format);
      ghost var named := Snapshot();
      assert named == s.(videoPath := PartPath(install, sw.stamp, sw.settings.format));
      var target := Resolve(recordArea, sw.monitor);
      match target
      case Refused(e) =>
        outcome, command := AreaRefused(e), None;
        Abort(w);
        assert Snapshot() == Aborted(named, install, w);
      case Captured(r) =>
        var args := BuildCaptureArgs(sw.settings, r, videoPath);
        command := Some(CommandLine(install.ffmpegPath, args));
        if !sw.spawned {
          outcome := SpawnFailed;
          Abort(w);
          assert Snapshot() == Aborted(named, install, w);
        } else {
          outcome := Recording;
          Launched(continueTimer);
          assert Snapshot() == named.(hasProcess := true, clock := if continueTimer then s.clock else Timer.Start());
        }
    }

    /** The success path: the process is kept and, unless the count continues, the counter starts. */
    method Launched(continueTimer: bool)
      modifies this
      ensures Snapshot() == old(Snapshot()).(hasProcess := true,
                                              clock := if continueTimer then old(Snapshot()).clock else Timer.Start())
    {
      hasProcess := true;
      if !continueTimer {
        StartTimer();
      }
    }

    /** create_new_video_file, given the clock reading. */
    method CreateNewVideoFile(stamp: string)
      modifies this
      ensures Snapshot() == NewVideoFile(old(Snapshot()), install, stamp)
    {
      videoPath := PathJoin(install.outputFolder, NumberedPartName(partIndex, stamp));
    }

    /** start_new_recording. */
    method StartNewRecording(partStamp: string, sw: StartWorld, w: StopWorld) returns (outcome: StartOutcome)
      modifies this
      ensures Snapshot() == Start(NewVideoFile(old(Snapshot()), install, partStamp), install, true, sw, w)
    {
      CreateNewVideoFile(partStamp);
      var command;
      outcome, command := StartRecording(true, sw, w);
    }

    /** on_monitor_change, given the files the closed encoder leaves. */
    method OnMonitorChange(after: map<string, nat>, partStamp: string, sw: StartWorld, w: StopWorld)
      modifies this
      ensures Snapshot() == MonitorChange(old(Snapshot()), install, after, partStamp, sw, w)
    {
      if running {
        StopCurrentRecording(after);
        var _ := StartNewRecording(partStamp, sw, w);
      }
    }

    /** toggle_recording. */
    method ToggleRecording(sw: StartWorld, w: StopWorld)
      modifies this
      ensures Snapshot() == Toggle(old(Snapshot()), install, sw, w)
    {
      if !running {
        var _, _ := StartRecording(false, sw, w);
      } else {
        var _ := StopRecording(w);
      }
    }
  }
}
