/**
 * The ffmpeg command lines the recorders build: the capture command of
 * miniscreenrecorder.py, the two platform variants of the older main.py /
 * MiniScreenRecorder.py, and the concat (merge) command.
 */
module Encoder {
  import opened Wrappers
  import opened Text
  import opened Capture

  /** The ffmpeg options the recorders use; `FlagName` gives each one's spelling. */
  datatype Flag =
    | Format | FrameRate | OffsetX | OffsetY | VideoSize | Input | AudioFilter
    | Threads | PixFmt | LogLevel | HideBanner | VideoCodec | Preset | VideoBitrate
    | Safe | StreamCodec | MoveFlags

  function FlagName(f: Flag): string
  {
    match f
    case Format => "-f"
    case FrameRate => "-framerate"
    case OffsetX => "-offset_x"
    case OffsetY => "-offset_y"
    case VideoSize => "-video_size"
    case Input => "-i"
    case AudioFilter => "-filter:a"
    case Threads => "-threads"
    case PixFmt => "-pix_fmt"
    case LogLevel => "-loglevel"
    case HideBanner => "-hide_banner"
    case VideoCodec => "-c:v"
    case Preset => "-preset"
    case VideoBitrate => "-b:v"
    case Safe => "-safe"
    case StreamCodec => "-c"
    case MoveFlags => "-movflags"
  }

  /** One element of an ffmpeg command line: an option with its value, a bare switch, or the output path. */
  datatype Arg = Opt(flag: Flag, value: string) | Switch(flag: Flag) | Output(path: string)

  /**
   * The choices read from the widgets when a recording starts. `volume` is the
   * text Python prints for the slider value divided by 100; the device name is
   * the one passed to the encoder (already normalised where the app does so).
   */
  datatype Settings = Settings(fps: nat, bitrate: string, codec: string, format: string,
                               audioDevice: string, volume: string)

  function RenderArg(a: Arg): seq<string>
  {
    match a
    case Opt(f, v) => [FlagName(f), v]
    case Switch(f) => [FlagName(f)]
    case Output(p) => [p]
  }

  /** The flat list of strings that reaches the process. */
  function Render(args: seq<Arg>): seq<string>
    decreases |args|
  {
    if |args| == 0 then [] else RenderArg(args[0]) + Render(args[1..])
  }

  /** The program followed by its arguments, as handed to Popen. */
  function CommandLine(program: string, args: seq<Arg>): (cmd: seq<string>)
    ensures |cmd| >= 1 && cmd[0] == program
  {
    [program] + Render(args)
  }

  /** When the last argument is the output path, the rendered command ends with that path. */
  lemma {:induction false} RenderEndsWithOutput(args: seq<Arg>, p: string)
    requires |args| > 0 && args[|args| - 1] == Output(p)
    ensures |Render(args)| > 0 && Render(args)[|Render(args)| - 1] == p
    decreases |args|
  {
    if |args| == 1 {
      assert Render(args) == [p] + Render(args[1..]);
    } else {
      var tail := args[1..];
      assert tail[|tail| - 1] == Output(p);
      RenderEndsWithOutput(tail, p);
    }
  }

  // ---------------------------------------------------------------
  // Reading a command line back
  // ---------------------------------------------------------------

  /** Option f occurs with value v. */
  ghost predicate HasOption(args: seq<Arg>, f: Flag, v: string)
  {
    exists i :: 0 <= i < |args| && args[i] == Opt(f, v)
  }

  /** Option f occurs with value v and with no other value. */
  ghost predicate OptionIs(args: seq<Arg>, f: Flag, v: string)
  {
    && HasOption(args, f, v)
    && (forall i :: 0 <= i < |args| && args[i].Opt? && args[i].flag == f ==> args[i].value == v)
  }

  /** Option f does not occur at all. */
  ghost predicate NoOption(args: seq<Arg>, f: Flag)
  {
    forall i :: 0 <= i < |args| ==> !(args[i].Opt? && args[i].flag == f)
  }

  /** Option f occurs with a single value, and that value reads back as the integer n. */
  ghost predicate IntOption(args: seq<Arg>, f: Flag, n: int)
  {
    exists v :: OptionIs(args, f, v) && ParseInt(v) == Some(n)
  }

  /** An option written with str(n) reads back as n. */
  lemma IntWritten(args: seq<Arg>, f: Flag, n: int)
    requires OptionIs(args, f, IntToString(n))
    ensures IntOption(args, f, n)
  {
    IntRoundTrip(n);
  }

  /** The last argument is the output p, and there is no other output. */
  ghost predicate OnlyOutput(args: seq<Arg>, p: string)
  {
    && |args| > 0 && args[|args| - 1] == Output(p)
    && (forall i :: 0 <= i < |args| && args[i].Output? ==> args[i].path == p)
  }

  /** `f"{width}x{height}"`. */
  function SizeText(w: int, h: int): string
  {
    IntToString(w) + "x" + IntToString(h)
  }

  /** Reads a "WxH" size back. */
  function ParseSize(s: string): Option<(int, int)>
  {
    var ps := Split(s, 'x');
    if |ps| == 2 && ParseInt(ps[0]).Some? && ParseInt(ps[1]).Some?
    then Some((ParseInt(ps[0]).value, ParseInt(ps[1]).value))
    else None
  }

  lemma NoCharInInt(i: int, c: char)
    requires !IsDigit(c) && c != '-'
    ensures c !in IntToString(i)
  {
  }

  /** The size written on the command line reads back as the same width and height. */
  lemma SizeRoundTrip(w: int, h: int)
    ensures ParseSize(SizeText(w, h)) == Some((w, h))
  {
    NoCharInInt(w, 'x');
    NoCharInInt(h, 'x');
    assert SizeText(w, h) == IntToString(w) + ['x'] + IntToString(h);
    SplitPair(IntToString(w), IntToString(h), 'x');
    IntRoundTrip(w);
    IntRoundTrip(h);
  }

  /** No output path at all. */
  ghost predicate NoOutput(args: seq<Arg>)
  {
    forall i :: 0 <= i < |args| ==> !args[i].Output?
  }

  /** The `-preset` options are exactly the one given, or none. */
  ghost predicate PresetIs(args: seq<Arg>, preset: Option<string>)
  {
    match preset
    case Some(v) => OptionIs(args, Preset, v)
    case None => NoOption(args, Preset)
  }

  /** An option with a single value keeps it when a list without that option is put before or after. */
  lemma OptionIsAppend(a: seq<Arg>, b: seq<Arg>, f: Flag, v: string)
    requires OptionIs(a, f, v) && NoOption(b, f)
    ensures OptionIs(a + b, f, v) && OptionIs(b + a, f, v)
  {
    var i :| 0 <= i < |a| && a[i] == Opt(f, v);
    assert (a + b)[i] == Opt(f, v);
    assert (b + a)[|b| + i] == Opt(f, v);
  }

  /** Two lists without an option joined have none either. */
  lemma NoOptionAppend(a: seq<Arg>, b: seq<Arg>, f: Flag)
    requires NoOption(a, f) && NoOption(b, f)
    ensures NoOption(a + b, f)
  {
  }

  // ---------------------------------------------------------------
  // The gdigrab capture command (miniscreenrecorder.py)
  // ---------------------------------------------------------------

  /** The encoder preset the app pins for a codec, if any. */
  function CodecPreset(codec: string): Option<string>
  {
    if codec == "libx264" then Some("veryfast")
    else if codec == "libx265" then Some("medium")
    else None
  }

  /** `-c:v` first and `-b:v` last, with the codec's preset between them when it has one. */
  function EncoderOptions(codec: string, bitrate: string): (opts: seq<Arg>)
    ensures |opts| >= 2 && opts[0] == Opt(VideoCodec, codec) && opts[|opts| - 1] == Opt(VideoBitrate, bitrate)
    ensures OptionIs(opts, VideoCodec, codec) && OptionIs(opts, VideoBitrate, bitrate)
    ensures PresetIs(opts, CodecPreset(codec))
    ensures forall i :: 0 <= i < |opts| ==> opts[i].Opt? && opts[i].flag in {VideoCodec, Preset, VideoBitrate}
  {
    match CodecPreset(codec)
    case Some(p) =>
      var opts := [Opt(VideoCodec, codec), Opt(Preset, p), Opt(VideoBitrate, bitrate)];
      assert opts[1] == Opt(Preset, p) && opts[2] == Opt(VideoBitrate, bitrate);
      opts
    case None => [Opt(VideoCodec, codec), Opt(VideoBitrate, bitrate)]
  }

  /** The fixed part of the list over its already written values: desktop grab, DirectShow audio, logging switches. */
  function GdigrabTemplate(fps: string, offsetX: string, offsetY: string, size: string,
                           device: string, volume: string): seq<Arg>
  {
    [ Opt(Format, "gdigrab"),
      Opt(FrameRate, fps),
      Opt(OffsetX, offsetX),
      Opt(OffsetY, offsetY),
      Opt(VideoSize, size),
      Opt(Input, "desktop"),
      Opt(Format, "dshow"),
      Opt(Input, "audio=" + device),
      Opt(AudioFilter, "volume=" + volume),
      Opt(Threads, "0"),
      Opt(PixFmt, "yuv420p"),
      Opt(LogLevel, "info"),
      Switch(HideBanner) ]
  }

  lemma GdigrabTemplateOffsetX(fps: string, offsetX: string, offsetY: string, size: string,
                               device: string, volume: string)
    ensures OptionIs(GdigrabTemplate(fps, offsetX, offsetY, size, device, volume), OffsetX, offsetX)
  {
    assert GdigrabTemplate(fps, offsetX, offsetY, size, device, volume)[2] == Opt(OffsetX, offsetX);
  }

  lemma GdigrabTemplateOffsetY(fps: string, offsetX: string, offsetY: string, size: string,
                               device: string, volume: string)
    ensures OptionIs(GdigrabTemplate(fps, offsetX, offsetY, size, device, volume), OffsetY, offsetY)
  {
    assert GdigrabTemplate(fps, offsetX, offsetY, size, device, volume)[3] == Opt(OffsetY, offsetY);
  }

  lemma GdigrabTemplateSize(fps: string, offsetX: string, offsetY: string, size: string,
                            device: string, volume: string)
    ensures OptionIs(GdigrabTemplate(fps, offsetX, offsetY, size, device, volume), VideoSize, size)
  {
    assert GdigrabTemplate(fps, offsetX, offsetY, size, device, volume)[4] == Opt(VideoSize, size);
  }

  lemma GdigrabTemplateRest(fps: string, offsetX: string, offsetY: string, size: string,
                            device: string, volume: string)
    ensures var g := GdigrabTemplate(fps, offsetX, offsetY, size, device, volume);
      && NoOption(g, VideoCodec) && NoOption(g, Preset) && NoOption(g, VideoBitrate)
      && NoOutput(g)
  {
  }

  function GdigrabInput(cfg: Settings, r: Region): seq<Arg>
  {
    GdigrabTemplate(NatToString(cfg.fps), IntToString(r.offsetX), IntToString(r.offsetY),
                    SizeText(r.width, r.height), cfg.audioDevice, cfg.volume)
  }

  /** The whole argument list after the program path. */
  function CaptureArgs(cfg: Settings, r: Region, path: string): seq<Arg>
  {
    GdigrabInput(cfg, r) + EncoderOptions(cfg.codec, cfg.bitrate) + [Output(path)]
  }

  /**
   * Builds the list the way the source does: the fixed part, then one of three
   * `extend` branches by codec, then the output path appended.
   */
  method BuildCaptureArgs(cfg: Settings, r: Region, path: string) returns (args: seq<Arg>)
    ensures args == CaptureArgs(cfg, r, path)
  {
    args := GdigrabInput(cfg, r);
    if cfg.codec == "libx264" {
      args := args + [Opt(VideoCodec, "libx264"), Opt(Preset, "veryfast"), Opt(VideoBitrate, cfg.bitrate)];
    } else if cfg.codec == "libx265" {
      args := args + [Opt(VideoCodec, "libx265"), Opt(Preset, "medium"), Opt(VideoBitrate, cfg.bitrate)];
    } else {
      args := args + [Opt(VideoCodec, cfg.codec), Opt(VideoBitrate, cfg.bitrate)];
    }
    args := args + [Output(path)];
  }

  /** The part after the fixed list carries none of the fixed list's geometry options. */
  lemma EncoderTailGeometry(cfg: Settings, path: string)
    ensures var rest := EncoderOptions(cfg.codec, cfg.bitrate) + [Output(path)];
      NoOption(rest, OffsetX) && NoOption(rest, OffsetY) && NoOption(rest, VideoSize)
  {
  }

  lemma CaptureOffsetX(cfg: Settings, r: Region, path: string)
    ensures IntOption(CaptureArgs(cfg, r, path), OffsetX, r.offsetX)
  {
    var x := IntToString(r.offsetX);
    GdigrabTemplateOffsetX(NatToString(cfg.fps), x, IntToString(r.offsetY), SizeText(r.width, r.height),
                           cfg.audioDevice, cfg.volume);
    EncoderTailGeometry(cfg, path);
    OptionIsAppend(GdigrabInput(cfg, r), EncoderOptions(cfg.codec, cfg.bitrate) + [Output(path)], OffsetX, x);
    assert CaptureArgs(cfg, r, path) == GdigrabInput(cfg, r) + (EncoderOptions(cfg.codec, cfg.bitrate) + [Output(path)]);
    IntWritten(CaptureArgs(cfg, r, path), OffsetX, r.offsetX);
  }

  lemma CaptureOffsetY(cfg: Settings, r: Region, path: string)
    ensures IntOption(CaptureArgs(cfg, r, path), OffsetY, r.offsetY)
  {
    var y := IntToString(r.offsetY);
    GdigrabTemplateOffsetY(NatToString(cfg.fps), IntToString(r.offsetX), y, SizeText(r.width, r.height),
                           cfg.audioDevice, cfg.volume);
    EncoderTailGeometry(cfg, path);
    OptionIsAppend(GdigrabInput(cfg, r), EncoderOptions(cfg.codec, cfg.bitrate) + [Output(path)], OffsetY, y);
    assert CaptureArgs(cfg, r, path) == GdigrabInput(cfg, r) + (EncoderOptions(cfg.codec, cfg.bitrate) + [Output(path)]);
    IntWritten(CaptureArgs(cfg, r, path), OffsetY, r.offsetY);
  }

  lemma CaptureSize(cfg: Settings, r: Region, path: string)
    ensures OptionIs(CaptureArgs(cfg, r, path), VideoSize, SizeText(r.width, r.height))
  {
    var size := SizeText(r.width, r.height);
    GdigrabTemplateSize(NatToString(cfg.fps), IntToString(r.offsetX), IntToString(r.offsetY), size,
                        cfg.audioDevice, cfg.volume);
    EncoderTailGeometry(cfg, path);
    OptionIsAppend(GdigrabInput(cfg, r), EncoderOptions(cfg.codec, cfg.bitrate) + [Output(path)], VideoSize, size);
    assert CaptureArgs(cfg, r, path) == GdigrabInput(cfg, r) + (EncoderOptions(cfg.codec, cfg.bitrate) + [Output(path)]);
  }

  /** Codec, bitrate and preset on the capture command are the chosen ones; the output path comes last. */
  lemma CaptureEncoding(program: string, cfg: Settings, r: Region, path: string)
    ensures var a := CaptureArgs(cfg, r, path);
      && OptionIs(a, VideoCodec, cfg.codec)
      && OptionIs(a, VideoBitrate, cfg.bitrate)
      && PresetIs(a, CodecPreset(cfg.codec))
      && OnlyOutput(a, path)
      && CommandLine(program, a)[|CommandLine(program, a)| - 1] == path
  {
    var g := GdigrabInput(cfg, r);
    var e := EncoderOptions(cfg.codec, cfg.bitrate);
    GdigrabTemplateRest(NatToString(cfg.fps), IntToString(r.offsetX), IntToString(r.offsetY),
                        SizeText(r.width, r.height), cfg.audioDevice, cfg.volume);
    EncodingAfter(g, e, cfg, path);
    RenderEndsWithOutput(g + e + [Output(path)], path);
  }

  /** The encoder options keep their meaning behind a list that has none of them and no output. */
  lemma EncodingAfter(g: seq<Arg>, e: seq<Arg>, cfg: Settings, path: string)
    requires NoOption(g, VideoCodec) && NoOption(g, Preset) && NoOption(g, VideoBitrate) && NoOutput(g)
    requires e == EncoderOptions(cfg.codec, cfg.bitrate)
    ensures var a := g + e + [Output(path)];
      && OptionIs(a, VideoCodec, cfg.codec)
      && OptionIs(a, VideoBitrate, cfg.bitrate)
      && PresetIs(a, CodecPreset(cfg.codec))
      && OnlyOutput(a, path)
  {
    var o := [Output(path)];
    OptionIsAppend(e, g, VideoCodec, cfg.codec);
    OptionIsAppend(e, g, VideoBitrate, cfg.bitrate);
    OptionIsAppend(g + e, o, VideoCodec, cfg.codec);
    OptionIsAppend(g + e, o, VideoBitrate, cfg.bitrate);
    match CodecPreset(cfg.codec) {
      case Some(p) =>
        OptionIsAppend(e, g, Preset, p);
        OptionIsAppend(g + e, o, Preset, p);
      case None =>
        NoOptionAppend(g, e, Preset);
        NoOptionAppend(g + e, o, Preset);
    }
  }

  /**
   * What the capture command tells ffmpeg: the offsets and size read back as
   * the region, the codec, bitrate and preset are the chosen ones, and the
   * output path is the last word of the command.
   */
  lemma CaptureArgsMeaning(program: string, cfg: Settings, r: Region, path: string)
    ensures var a := CaptureArgs(cfg, r, path);
      && IntOption(a, OffsetX, r.offsetX)
      && IntOption(a, OffsetY, r.offsetY)
      && OptionIs(a, VideoSize, SizeText(r.width, r.height))
      && ParseSize(SizeText(r.width, r.height)) == Some((r.width, r.height))
      && OptionIs(a, VideoCodec, cfg.codec)
      && OptionIs(a, VideoBitrate, cfg.bitrate)
      && PresetIs(a, CodecPreset(cfg.codec))
      && OnlyOutput(a, path)
      && CommandLine(program, a)[|CommandLine(program, a)| - 1] == path
  {
    CaptureOffsetX(cfg, r, path);
    CaptureOffsetY(cfg, r, path);
    CaptureSize(cfg, r, path);
    SizeRoundTrip(r.width, r.height);
    CaptureEncoding(program, cfg, r, path);
  }

  // ---------------------------------------------------------------
  // The two platform commands of main.py and MiniScreenRecorder.py
  // ---------------------------------------------------------------

  /** Windows: desktop grab, codec and bitrate as chosen, no preset and no logging switches. */
  function LegacyGdigrabTemplate(fps: string, offsetX: string, offsetY: string, size: string,
                                 device: string, volume: string, codec: string, bitrate: string,
                                 path: string): seq<Arg>
  {
    [ Opt(Format, "gdigrab"),
      Opt(FrameRate, fps),
      Opt(OffsetX, offsetX),
      Opt(OffsetY, offsetY),
      Opt(VideoSize, size),
      Opt(Input, "desktop"),
      Opt(Format, "dshow"),
      Opt(Input, "audio=" + device),
      Opt(AudioFilter, "volume=" + volume),
      Opt(VideoCodec, codec),
      Opt(VideoBitrate, bitrate),
      Opt(PixFmt, "yuv420p"),
      Output(path) ]
  }

  lemma LegacyGdigrabTemplateOffsetX(fps: string, offsetX: string, offsetY: string, size: string,
      device: string, volume: string, codec: string, bitrate: string, path: string)
    ensures var a := LegacyGdigrabTemplate(fps, offsetX, offsetY, size, device, volume, codec, bitrate, path);
      OptionIs(a, OffsetX, offsetX)
  {
    var a := LegacyGdigrabTemplate(fps, offsetX, offsetY, size, device, volume, codec, bitrate, path);
    assert a[2] == Opt(OffsetX, offsetX);
  }

  lemma LegacyGdigrabTemplateOffsetY(fps: string, offsetX: string, offsetY: string, size: string,
      device: string, volume: string, codec: string, bitrate: string, path: string)
    ensures var a := LegacyGdigrabTemplate(fps, offsetX, offsetY, size, device, volume, codec, bitrate, path);
      OptionIs(a, OffsetY, offsetY)
  {
    var a := LegacyGdigrabTemplate(fps, offsetX, offsetY, size, device, volume, codec, bitrate, path);
    assert a[3] == Opt(OffsetY, offsetY);
  }

  lemma LegacyGdigrabTemplateSize(fps: string, offsetX: string, offsetY: string, size: string,
      device: string, volume: string, codec: string, bitrate: string, path: string)
    ensures var a := LegacyGdigrabTemplate(fps, offsetX, offsetY, size, device, volume, codec, bitrate, path);
      OptionIs(a, VideoSize, size)
  {
    var a := LegacyGdigrabTemplate(fps, offsetX, offsetY, size, device, volume, codec, bitrate, path);
    assert a[4] == Opt(VideoSize, size);
  }

  lemma LegacyGdigrabTemplateCodec(fps: string, offsetX: string, offsetY: string, size: string,
      device: string, volume: string, codec: string, bitrate: string, path: string)
    ensures var a := LegacyGdigrabTemplate(fps, offsetX, offsetY, size, device, volume, codec, bitrate, path);
      OptionIs(a, VideoCodec, codec) && NoOption(a, Preset)
  {
    var a := LegacyGdigrabTemplate(fps, offsetX, offsetY, size, device, volume, codec, bitrate, path);
    assert a[9] == Opt(VideoCodec, codec);
  }

  lemma LegacyGdigrabTemplateBitrate(fps: string, offsetX: string, offsetY: string, size: string,
      device: string, volume: string, codec: string, bitrate: string, path: string)
    ensures var a := LegacyGdigrabTemplate(fps, offsetX, offsetY, size, device, volume, codec, bitrate, path);
      OptionIs(a, VideoBitrate, bitrate) && OnlyOutput(a, path)
  {
    var a := LegacyGdigrabTemplate(fps, offsetX, offsetY, size, device, volume, codec, bitrate, path);
    assert a[10] == Opt(VideoBitrate, bitrate);
  }

  function LegacyGdigrabArgs(cfg: Settings, r: Region, path: string): seq<Arg>
  {
    LegacyGdigrabTemplate(NatToString(cfg.fps), IntToString(r.offsetX), IntToString(r.offsetY),
                          SizeText(r.width, r.height), cfg.audioDevice, cfg.volume,
                          cfg.codec, cfg.bitrate, path)
  }

  /** The Windows command of the older apps: offsets and size read back, codec and bitrate as chosen, no preset. */
  lemma LegacyGdigrabMeaning(cfg: Settings, r: Region, path: string)
    ensures var a := LegacyGdigrabArgs(cfg, r, path);
      && IntOption(a, OffsetX, r.offsetX)
      && IntOption(a, OffsetY, r.offsetY)
      && OptionIs(a, VideoSize, SizeText(r.width, r.height))
      && ParseSize(SizeText(r.width, r.height)) == Some((r.width, r.height))
      && OptionIs(a, VideoCodec, cfg.codec)
      && OptionIs(a, VideoBitrate, cfg.bitrate)
      && NoOption(a, Preset)
      && OnlyOutput(a, path)
  {
    var a := LegacyGdigrabArgs(cfg, r, path);
    var fps, x, y, size := NatToString(cfg.fps), IntToString(r.offsetX), IntToString(r.offsetY), SizeText(r.width, r.height);
    LegacyGdigrabTemplateOffsetX(fps, x, y, size, cfg.audioDevice, cfg.volume, cfg.codec, cfg.bitrate, path);
    LegacyGdigrabTemplateOffsetY(fps, x, y, size, cfg.audioDevice, cfg.volume, cfg.codec, cfg.bitrate, path);
    LegacyGdigrabTemplateSize(fps, x, y, size, cfg.audioDevice, cfg.volume, cfg.codec, cfg.bitrate, path);
    LegacyGdigrabTemplateCodec(fps, x, y, size, cfg.audioDevice, cfg.volume, cfg.codec, cfg.bitrate, path);
    LegacyGdigrabTemplateBitrate(fps, x, y, size, cfg.audioDevice, cfg.volume, cfg.codec, cfg.bitrate, path);
    IntWritten(a, OffsetX, r.offsetX);
    IntWritten(a, OffsetY, r.offsetY);
    SizeRoundTrip(r.width, r.height);
  }

  /** `f"{os.getenv('DISPLAY')}"`: an unset variable prints as "None". */
  function DisplayText(display: Option<string>): string
  {
    match display
    case Some(d) => d
    case None => "None"
  }

  /** The x11grab input: the display, then "+x,y". */
  function ScreenInput(display: string, x: int, y: int): string
  {
    display + "+" + IntToString(x) + "," + IntToString(y)
  }

  /** Reads the offsets back out of an x11grab input for a known display. */
  function ParseScreenInput(display: string, v: string): Option<(int, int)>
  {
    if |v| > |display| && v[..|display|] == display && v[|display|] == '+' then
      var ps := Split(v[|display| + 1..], ',');
      if |ps| == 2 && ParseInt(ps[0]).Some? && ParseInt(ps[1]).Some?
      then Some((ParseInt(ps[0]).value, ParseInt(ps[1]).value))
      else None
    else None
  }

  /** The offsets written into the x11grab input read back unchanged, whatever the display is called. */
  lemma ScreenInputRoundTrip(display: string, x: int, y: int)
    ensures ParseScreenInput(display, ScreenInput(display, x, y)) == Some((x, y))
  {
    var v := ScreenInput(display, x, y);
    var sx, sy := IntToString(x), IntToString(y);
    var tail := sx + [','] + sy;
    assert v == display + (['+'] + tail);
    assert v[..|display|] == display && v[|display|] == '+';
    assert v[|display| + 1..] == tail;
    NoCharInInt(x, ',');
    NoCharInInt(y, ',');
    SplitPair(sx, sy, ',');
    IntRoundTrip(x);
    IntRoundTrip(y);
  }

  /** Linux: X11 grab of the screen input, PulseAudio device passed unchanged. */
  function X11grabTemplate(fps: string, size: string, screen: string, device: string, volume: string,
                           codec: string, bitrate: string, path: string): seq<Arg>
  {
    [ Opt(Format, "x11grab"),
      Opt(FrameRate, fps),
      Opt(VideoSize, size),
      Opt(Input, screen),
      Opt(Format, "pulse"),
      Opt(Input, device),
      Opt(AudioFilter, "volume=" + volume),
      Opt(VideoCodec, codec),
      Opt(VideoBitrate, bitrate),
      Opt(PixFmt, "yuv420p"),
      Output(path) ]
  }

  lemma X11grabTemplateInputs(fps: string, size: string, screen: string, device: string, volume: string,
                              codec: string, bitrate: string, path: string)
    ensures var a := X11grabTemplate(fps, size, screen, device, volume, codec, bitrate, path);
      && HasOption(a, Input, screen) && HasOption(a, Input, device)
      && (forall i :: 0 <= i < |a| && a[i].Opt? && a[i].flag == Input ==> a[i].value == screen || a[i].value == device)
      && NoOption(a, OffsetX) && NoOption(a, OffsetY)
  {
    var a := X11grabTemplate(fps, size, screen, device, volume, codec, bitrate, path);
    assert a[3] == Opt(Input, screen) && a[5] == Opt(Input, device);
  }

  lemma X11grabTemplateEncoding(fps: string, size: string, screen: string, device: string, volume: string,
                                codec: string, bitrate: string, path: string)
    ensures var a := X11grabTemplate(fps, size, screen, device, volume, codec, bitrate, path);
      && OptionIs(a, VideoSize, size) && OptionIs(a, VideoCodec, codec) && OnlyOutput(a, path)
  {
    var a := X11grabTemplate(fps, size, screen, device, volume, codec, bitrate, path);
    assert a[2] == Opt(VideoSize, size) && a[7] == Opt(VideoCodec, codec);
  }

  function X11grabArgs(display: Option<string>, cfg: Settings, r: Region, path: string): seq<Arg>
  {
    X11grabTemplate(NatToString(cfg.fps), SizeText(r.width, r.height),
                    ScreenInput(DisplayText(display), r.offsetX, r.offsetY),
                    cfg.audioDevice, cfg.volume, cfg.codec, cfg.bitrate, path)
  }

  /**
   * The Linux command carries no offset options: the offsets travel in the
   * screen input, which reads back as the region's; the only other input is
   * the audio device, unchanged.
   */
  lemma X11grabMeaning(display: Option<string>, cfg: Settings, r: Region, path: string)
    ensures var a := X11grabArgs(display, cfg, r, path);
      var screen := ScreenInput(DisplayText(display), r.offsetX, r.offsetY);
      && NoOption(a, OffsetX) && NoOption(a, OffsetY)
      && OptionIs(a, VideoSize, SizeText(r.width, r.height))
      && OptionIs(a, VideoCodec, cfg.codec)
      && HasOption(a, Input, screen) && HasOption(a, Input, cfg.audioDevice)
      && (forall i :: 0 <= i < |a| && a[i].Opt? && a[i].flag == Input ==>
            a[i].value == screen || a[i].value == cfg.audioDevice)
      && ParseScreenInput(DisplayText(display), screen) == Some((r.offsetX, r.offsetY))
      && OnlyOutput(a, path)
  {
    var fps, size := NatToString(cfg.fps), SizeText(r.width, r.height);
    var screen := ScreenInput(DisplayText(display), r.offsetX, r.offsetY);
    X11grabTemplateInputs(fps, size, screen, cfg.audioDevice, cfg.volume, cfg.codec, cfg.bitrate, path);
    X11grabTemplateEncoding(fps, size, screen, cfg.audioDevice, cfg.volume, cfg.codec, cfg.bitrate, path);
    ScreenInputRoundTrip(DisplayText(display), r.offsetX, r.offsetY);
  }

  // ---------------------------------------------------------------
  // The merge command (miniscreenrecorder.py, concat_video_parts)
  // ---------------------------------------------------------------

  /** Concat demuxer over the list file, stream copy, moov atom moved to the front. */
  function ConcatArgs(listPath: string, output: string): seq<Arg>
  {
    [ Opt(Format, "concat"),
      Opt(Safe, "0"),
      Opt(Input, listPath),
      Opt(StreamCodec, "copy"),
      Opt(MoveFlags, "+faststart"),
      Output(output) ]
  }

  /** The merge reads only the list file, copies the streams without re-encoding and writes one output. */
  lemma ConcatArgsMeaning(listPath: string, output: string)
    ensures var a := ConcatArgs(listPath, output);
      && OptionIs(a, Input, listPath)
      && OptionIs(a, StreamCodec, "copy")
      && NoOption(a, VideoCodec)
      && OnlyOutput(a, output)
  {
    var a := ConcatArgs(listPath, output);
    assert a[2] == Opt(Input, listPath);
    assert a[3] == Opt(StreamCodec, "copy");
  }
}
