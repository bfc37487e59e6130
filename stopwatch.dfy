/**
 * The browser recorder of js/script.js: the minutes-and-seconds stopwatch,
 * the chunks gathered from the MediaRecorder, stopping it once, and the
 * name of the file offered for download.
 */
module Stopwatch {
  import opened Text

  // ---------------------------------------------------------------
  // The stopwatch
  // ---------------------------------------------------------------

  datatype Watch = Watch(minutes: nat, seconds: nat)

  /** One interval tick: a second more, wrapping into a minute at 60. */
  function Tick(w: Watch): (v: Watch)
    ensures w.seconds < 60 ==> v.seconds < 60 && v.minutes * 60 + v.seconds == w.minutes * 60 + w.seconds + 1
  {
    if w.seconds + 1 == 60 then Watch(w.minutes + 1, 0) else Watch(w.minutes, w.seconds + 1)
  }

  /** n ticks. */
  function Ticks(w: Watch, n: nat): Watch
    decreases n
  {
    if n == 0 then w else Ticks(Tick(w), n - 1)
  }

  /** After n ticks from a start at zero the watch reads n seconds, with fewer than 60 in the seconds field. */
  lemma {:induction false} TicksCount(w: Watch, n: nat)
    requires w.seconds < 60
    ensures Ticks(w, n).seconds < 60
    ensures Ticks(w, n).minutes * 60 + Ticks(w, n).seconds == w.minutes * 60 + w.seconds + n
    decreases n
  {
    if n > 0 {
      TicksCount(Tick(w), n - 1);
    }
  }

  lemma TicksFromZero(n: nat)
    ensures Ticks(Watch(0, 0), n) == Watch(n / 60, n % 60)
  {
    TicksCount(Watch(0, 0), n);
  }

  /** updateStopwatchDisplay: below 10 a leading zero, otherwise the number as it is. */
  function Display(n: nat): (s: string)
    ensures n < 10 ==> |s| == 2 && s[0] == '0' && s[1..] == NatToString(n)
    ensures n >= 10 ==> s == NatToString(n)
  {
    TwoDigits(n)
  }

  /** The shown text reads back as the number, and seconds always show as two digits. */
  lemma DisplayReads(n: nat)
    ensures AllDigits(Display(n)) && ParseNat(Display(n)) == n
    ensures n < 100 ==> |Display(n)| == 2
  {
    TwoDigitsRead(n);
  }

  // ---------------------------------------------------------------
  // Chunks and the download name
  // ---------------------------------------------------------------

  /** A piece of recorded data handed to ondataavailable. */
  datatype Blob = Blob(id: nat, size: nat)

  /** The chunks ondataavailable keeps: the non-empty ones, in arrival order. */
  function NonEmpty(arrived: seq<Blob>): (kept: seq<Blob>)
    ensures |kept| <= |arrived|
    ensures forall k :: 0 <= k < |kept| ==> kept[k].size > 0 && kept[k] in arrived
    decreases |arrived|
  {
    if |arrived| == 0 then []
    else
      var last := arrived[|arrived| - 1];
      NonEmpty(arrived[..|arrived| - 1]) + (if last.size > 0 then [last] else [])
  }

  /** What arrives in two stretches is kept as the two stretches' chunks in order. */
  lemma {:induction false} NonEmptyAppend(a: seq<Blob>, b: seq<Blob>)
    ensures NonEmpty(a + b) == NonEmpty(a) + NonEmpty(b)
    decreases |b|
  {
    if |b| == 0 {
      assert a + b == a;
    } else {
      var ab := a + b;
      assert ab[..|ab| - 1] == a + b[..|b| - 1];
      assert ab[|ab| - 1] == b[|b| - 1];
      NonEmptyAppend(a, b[..|b| - 1]);
    }
  }

  /** Every non-empty chunk that arrives is kept. */
  lemma {:induction false} NonEmptyKeepsData(arrived: seq<Blob>, k: nat)
    requires k < |arrived| && arrived[k].size > 0
    ensures arrived[k] in NonEmpty(arrived)
    decreases |arrived|
  {
    if k < |arrived| - 1 {
      NonEmptyKeepsData(arrived[..|arrived| - 1], k);
    }
  }

  /** `toISOString().replace(/[:.]/g, '-')`. */
  function Sanitize(iso: string): (r: string)
    ensures |r| == |iso|
    decreases |iso|
  {
    if |iso| == 0 then ""
    else [if iso[0] == ':' || iso[0] == '.' then '-' else iso[0]] + Sanitize(iso[1..])
  }

  /** The replacement leaves no colon or dot and changes nothing else. */
  lemma {:induction false} SanitizeMeaning(iso: string)
    ensures forall k :: 0 <= k < |iso| ==>
      Sanitize(iso)[k] == if iso[k] == ':' || iso[k] == '.' then '-' else iso[k]
    ensures ':' !in Sanitize(iso) && '.' !in Sanitize(iso)
    decreases |iso|
  {
    if |iso| > 0 {
      SanitizeMeaning(iso[1..]);
      var r := Sanitize(iso);
      assert r[1..] == Sanitize(iso[1..]);
      forall k | 0 <= k < |iso|
        ensures r[k] == if iso[k] == ':' || iso[k] == '.' then '-' else iso[k]
      {
        if k > 0 {
          assert r[k] == Sanitize(iso[1..])[k - 1];
        }
      }
    }
  }

  /** `recording-<timestamp>.webm`. */
  function DownloadName(iso: string): string
  {
    "recording-" + Sanitize(iso) + ".webm"
  }

  /** The name keeps the timestamp's other characters; its only dot is the one before the extension. */
  lemma DownloadNameShape(iso: string)
    ensures var name := DownloadName(iso);
      && |name| == |iso| + 15
      && name[..10] == "recording-" && name[|name| - 5..] == ".webm"
      && (forall k :: 0 <= k < |name| - 5 ==> name[k] != '.' && name[k] != ':')
      && (forall k :: 0 <= k < |iso| && iso[k] != ':' && iso[k] != '.' ==> name[10 + k] == iso[k])
  {
    var name := DownloadName(iso);
    var middle := Sanitize(iso);
    SanitizeMeaning(iso);
    assert name[10..10 + |iso|] == middle;
    forall k | 0 <= k < |name| - 5
      ensures name[k] != '.' && name[k] != ':'
    {
      if k >= 10 {
        assert name[k] == middle[k - 10];
      }
    }
  }

  // ---------------------------------------------------------------
  // The page's state
  // ---------------------------------------------------------------

  /**
   * The module-level variables of the script, the current recording's
   * chunks, and what it has done: `stopCalls` counts the calls of
   * mediaRecorder.stop in this recording, `arrived` the data seen since the
   * last start or stop.
   */
  class BrowserRecorder {
    var shouldStop: bool
    var stopped: bool
    var seconds: nat
    var minutes: nat
    var ticking: bool
    var recording: bool
    var chunks: seq<Blob>
    var stopCalls: nat
    var downloadBlob: seq<Blob>
    var downloadName: string
    ghost var arrived: seq<Blob>
    ghost var ticks: nat

    /** Within a recording: stop called at most once, exactly when `stopped` is set; the chunks are the non-empty data; the watch reads the ticks. */
    ghost predicate Valid()
      reads this
    {
      && stopCalls <= 1 && (stopped <==> stopCalls == 1)
      && chunks == NonEmpty(arrived)
      && seconds < 60 && minutes * 60 + seconds == ticks
    }

    constructor ()
      ensures Valid() && !shouldStop && !stopped && seconds == 0 && minutes == 0
      ensures !ticking && !recording && chunks == []
    {
      shouldStop, stopped := false, false;
      seconds, minutes := 0, 0;
      ticking, recording := false, false;
      chunks, stopCalls := [], 0;
      downloadBlob, downloadName := [], "";
      arrived, ticks := [], 0;
    }

    /** The stop button. */
    method StopClicked()
      modifies this
      requires Valid()
      ensures Valid() && shouldStop
      ensures stopped == old(stopped) && stopCalls == old(stopCalls) && chunks == old(chunks)
      ensures seconds == old(seconds) && minutes == old(minutes) && recording == old(recording)
      ensures ticking == old(ticking) && downloadBlob == old(downloadBlob) && downloadName == old(downloadName)
    {
      shouldStop := true;
    }

    /**
     * recordScreenWithAudioDesk / ...AndMicandDesk: clear the stop request;
     * when the browser can capture and grants a stream, handleRecord starts
     * the stopwatch at zero and a fresh recording.
     */
    method StartCapture(granted: bool)
      modifies this
      requires Valid()
      ensures Valid() && !shouldStop
      ensures granted ==> && recording && ticking && seconds == 0 && minutes == 0
                          && !stopped && stopCalls == 0 && chunks == []
      ensures !granted ==> recording == old(recording) && stopped == old(stopped) && chunks == old(chunks)
                           && stopCalls == old(stopCalls) && seconds == old(seconds) && minutes == old(minutes)
                           && ticking == old(ticking)
      ensures downloadBlob == old(downloadBlob) && downloadName == old(downloadName)
    {
      shouldStop := false;
      if granted {
        seconds, minutes := 0, 0;
        ticks := 0;
        ticking := true;
        chunks, arrived := [], [];
        stopped, stopCalls := false, 0;
        recording := true;
      }
    }

    /** A second passes: the interval callback runs while the interval is set, and not after clearInterval. */
    method SecondPasses()
      modifies this
      requires Valid()
      ensures Valid()
      ensures Watch(minutes, seconds) == if old(ticking) then Tick(Watch(old(minutes), old(seconds)))
                                         else Watch(old(minutes), old(seconds))
      ensures ticks == old(ticks) + if old(ticking) then 1 else 0
      ensures ticking == old(ticking) && recording == old(recording) && shouldStop == old(shouldStop)
      ensures stopped == old(stopped) && stopCalls == old(stopCalls) && chunks == old(chunks)
      ensures downloadBlob == old(downloadBlob) && downloadName == old(downloadName)
    {
      if ticking {
        seconds := seconds + 1;
        if seconds == 60 {
          seconds := 0;
          minutes := minutes + 1;
        }
        ticks := ticks + 1;
      }
    }

    /** ondataavailable: keep non-empty data; on a pending stop request, stop the recorder, once. */
    method DataAvailable(data: Blob)
      modifies this
      requires Valid()
      ensures Valid()
      ensures chunks == old(chunks) + (if data.size > 0 then [data] else [])
      ensures stopCalls == if old(shouldStop) && !old(stopped) then 1 else old(stopCalls)
      ensures stopped == (old(stopped) || old(shouldStop))
      ensures shouldStop == old(shouldStop) && seconds == old(seconds) && minutes == old(minutes)
      ensures ticking == old(ticking) && recording == old(recording)
      ensures downloadBlob == old(downloadBlob) && downloadName == old(downloadName)
    {
      var kept := if data.size > 0 then [data] else [];
      NonEmptyAppend(arrived, [data]);
      assert NonEmpty([data]) == kept by {
        assert [data][..0] == [];
      }
      arrived := arrived + [data];
      chunks := chunks + kept;
      if shouldStop && !stopped {
        stopCalls := stopCalls + 1;
        stopped := true;
      }
    }

    /** onstop: the chunks become the download, named from the stop time, and are cleared; the stopwatch stops. */
    method Stopped(isoTimestamp: string)
      modifies this
      requires Valid()
      ensures Valid()
      ensures downloadBlob == old(chunks) && chunks == [] && arrived == []
      ensures downloadName == DownloadName(isoTimestamp)
      ensures !ticking && !recording && stopped == old(stopped) && stopCalls == old(stopCalls)
      ensures shouldStop == old(shouldStop) && seconds == old(seconds) && minutes == old(minutes)
    {
      downloadBlob := chunks;
      chunks, arrived := [], [];
      downloadName := DownloadName(isoTimestamp);
      ticking := false;
      recording := false;
    }
  }
}
