/**
 * Text the recorder writes about its parts: the concat list handed to the
 * merge (miniscreenrecorder.py, concat_video_parts) and the batching of the
 * encoder's diagnostic lines (read_ffmpeg_output).
 */
module Segments {
  import opened Wrappers
  import opened Text

  // ---------------------------------------------------------------
  // The concat list
  // ---------------------------------------------------------------

  /** `f"file '{path}'\n"`; the parts' paths are already absolute, so abspath leaves them as they are. */
  function ManifestLine(path: string): string
  {
    "file '" + path + "'\n"
  }

  /** One line per part, in list order. */
  function Manifest(parts: seq<string>): string
    decreases |parts|
  {
    if |parts| == 0 then "" else ManifestLine(parts[0]) + Manifest(parts[1..])
  }

  /** Writing one more line extends the list by exactly that line. */
  lemma {:induction false} ManifestSnoc(parts: seq<string>, p: string)
    ensures Manifest(parts + [p]) == Manifest(parts) + ManifestLine(p)
    decreases |parts|
  {
    if |parts| == 0 {
      assert Manifest([p]) == ManifestLine(p) + Manifest([]);
    } else {
      assert (parts + [p])[1..] == parts[1..] + [p];
      ManifestSnoc(parts[1..], p);
    }
  }

  /** The `with open(...)` loop: one write per part, in order. */
  method WriteManifest(parts: seq<string>) returns (text: string)
    ensures text == Manifest(parts)
  {
    text := "";
    var i := 0;
    while i < |parts|
      invariant 0 <= i <= |parts|
      invariant text == Manifest(parts[..i])
    {
      ManifestSnoc(parts[..i], parts[i]);
      assert parts[..i + 1] == parts[..i] + [parts[i]];
      text := text + ManifestLine(parts[i]);
      i := i + 1;
    }
    assert parts[..i] == parts;
  }

  /**
   * How the concat demuxer reads the name after `file `: a quote opens or
   * closes a literal run, a backslash outside quotes takes the next character
   * as it is, and a blank outside quotes ends the name.
   */
  function Unquote(s: string, quoted: bool): string
    decreases |s|
  {
    if |s| == 0 then ""
    else if s[0] == '\'' then Unquote(s[1..], !quoted)
    else if !quoted && s[0] == '\\' && |s| > 1 then [s[1]] + Unquote(s[2..], false)
    else if !quoted && (s[0] == ' ' || s[0] == '\t') then ""
    else [s[0]] + Unquote(s[1..], quoted)
  }

  /** The `file` entries of the lines of a list, in order; other lines name nothing. */
  function FileEntries(lines: seq<string>): seq<string>
    decreases |lines|
  {
    if |lines| == 0 then []
    else
      var l := lines[0];
      (if |l| >= 5 && l[..5] == "file " then [Unquote(l[5..], false)] else []) + FileEntries(lines[1..])
  }

  /** The files a concat list names. */
  function ReadManifest(text: string): seq<string>
  {
    FileEntries(Split(text, '\n'))
  }

  /** Inside quotes, text without a quote is taken literally. */
  lemma {:induction false} UnquoteLiteral(p: string, tail: string)
    requires '\'' !in p
    ensures Unquote(p + tail, true) == p + Unquote(tail, true)
    decreases |p|
  {
    if |p| > 0 {
      assert (p + tail)[1..] == p[1..] + tail;
      UnquoteLiteral(p[1..], tail);
      assert [p[0]] + (p[1..] + Unquote(tail, true)) == p + Unquote(tail, true);
    } else {
      assert p + tail == tail;
    }
  }

  /** One part's line: the lines of the list split where the writer put its newlines. */
  lemma ManifestLineSplits(p: string, rest: string)
    requires '\n' !in p
    ensures Split(ManifestLine(p) + rest, '\n') == ["file '" + p + "'"] + Split(rest, '\n')
  {
    var a := "file '" + p + "'";
    assert ManifestLine(p) + rest == a + ['\n'] + rest;
    SplitCons(a, rest, '\n');
  }

  /** The quoted name of one line reads back as the path. */
  lemma EntryReadsBack(p: string)
    requires '\'' !in p
    ensures var l := "file '" + p + "'"; |l| >= 5 && l[..5] == "file " && Unquote(l[5..], false) == p
  {
    var l := "file '" + p + "'";
    assert l[5..] == "'" + (p + "'");
    UnquoteLiteral(p, "'");
    assert Unquote("'", true) == Unquote("", false);
  }

  /** A `file` line in front names its entry first. */
  lemma EntryFirst(l: string, p: string, lines: seq<string>)
    requires |l| >= 5 && l[..5] == "file " && Unquote(l[5..], false) == p
    ensures FileEntries([l] + lines) == [p] + FileEntries(lines)
  {
    assert ([l] + lines)[0] == l && ([l] + lines)[1..] == lines;
  }

  /**
   * The list reads back as exactly the parts, in order, as long as no path
   * holds a quote or a newline.
   */
  lemma {:induction false} ManifestRoundTrip(parts: seq<string>)
    requires forall k :: 0 <= k < |parts| ==> '\'' !in parts[k] && '\n' !in parts[k]
    ensures ReadManifest(Manifest(parts)) == parts
    decreases |parts|
  {
    if |parts| == 0 {
      assert Split("", '\n') == [""];
    } else {
      var tail := parts[1..];
      assert forall k :: 0 <= k < |tail| ==> tail[k] == parts[k + 1];
      ManifestRoundTrip(tail);
      assert parts == [parts[0]] + tail;
      ManifestStep(parts[0], tail);
    }
  }

  /** One more line in front of a list that reads back reads back with its part in front. */
  lemma ManifestStep(p: string, tail: seq<string>)
    requires '\'' !in p && '\n' !in p
    requires ReadManifest(Manifest(tail)) == tail
    ensures ReadManifest(Manifest([p] + tail)) == [p] + tail
  {
    var rest := Manifest(tail);
    var l := "file '" + p + "'";
    assert ([p] + tail)[0] == p && ([p] + tail)[1..] == tail;
    assert Manifest([p] + tail) == ManifestLine(p) + rest;
    ManifestLineSplits(p, rest);
    EntryReadsBack(p);
    EntryFirst(l, p, Split(rest, '\n'));
  }

  /**
   * A quote in a path is taken as a quote: a path with one quote, followed by
   * a name without blanks or backslashes, reaches the demuxer without it
   * (".../O'Brien.mkv" is read as ".../OBrien.mkv").
   */
  lemma QuoteDropped(a: string, w: string)
    requires '\'' !in a && '\n' !in a
    requires forall k :: 0 <= k < |w| ==> w[k] !in {'\'', '\\', ' ', '\t', '\n'}
    ensures ReadManifest(Manifest([a + "'" + w])) == [a + w]
  {
    var p := a + "'" + w;
    var l := "file '" + p + "'";
    assert forall k :: 0 <= k < |w| ==> w[k] != '\n';
    assert '\n' !in w;
    assert '\n' !in p;
    assert Manifest([p]) == ManifestLine(p) + "";
    ManifestLineSplits(p, "");
    assert Split("", '\n') == [""];
    QuotedEntry(a, w);
    EntryFirst(l, a + w, [""]);
    assert FileEntries([""]) == [];
  }

  /** The entry of a line whose path holds one quote: the quote closes the literal run. */
  lemma QuotedEntry(a: string, w: string)
    requires '\'' !in a
    requires forall k :: 0 <= k < |w| ==> w[k] !in {'\'', '\\', ' ', '\t', '\n'}
    ensures var l := "file '" + (a + "'" + w) + "'";
      |l| >= 5 && l[..5] == "file " && Unquote(l[5..], false) == a + w
  {
    var l := "file '" + (a + "'" + w) + "'";
    var tail := "'" + w + "'";
    assert l[5..] == "'" + (a + tail);
    assert Unquote(l[5..], false) == Unquote(a + tail, true);
    UnquoteLiteral(a, tail);
    assert tail[0] == '\'' && tail[1..] == w + "'";
    UnquoteBare(w);
  }

  lemma {:induction false} UnquoteBare(w: string)
    requires forall k :: 0 <= k < |w| ==> w[k] !in {'\'', '\\', ' ', '\t'}
    ensures Unquote(w + "'", false) == w
    decreases |w|
  {
    if |w| == 0 {
      assert w + "'" == "'";
    } else {
      assert (w + "'")[1..] == w[1..] + "'";
      UnquoteBare(w[1..]);
      assert [w[0]] + w[1..] == w;
    }
  }

  // ---------------------------------------------------------------
  // The diagnostic reader's batches
  // ---------------------------------------------------------------

  /** The lines of the batches, in order. */
  function Flatten(batches: seq<seq<string>>): seq<string>
    decreases |batches|
  {
    if |batches| == 0 then [] else Flatten(batches[..|batches| - 1]) + batches[|batches| - 1]
  }

  /**
   * The reader loop: lines are gathered in a buffer; a full buffer of 100
   * lines is logged at error level and emptied; whatever remains when the
   * stream ends is logged at info level if there is any. `errors` are the
   * batches logged as errors, in order, and `final` the last, short batch.
   */
  method BatchLines(lines: seq<string>) returns (errors: seq<seq<string>>, final: Option<seq<string>>)
    ensures forall k :: 0 <= k < |errors| ==> |errors[k]| == 100
    ensures final.Some? ==> 0 < |final.value| < 100
    ensures Flatten(errors) + (if final.Some? then final.value else []) == lines
    ensures |errors| == |lines| / 100
  {
    errors := [];
    var buffer: seq<string> := [];
    var i := 0;
    while i < |lines|
      invariant 0 <= i <= |lines|
      invariant |buffer| < 100
      invariant forall k :: 0 <= k < |errors| ==> |errors[k]| == 100
      invariant Flatten(errors) + buffer == lines[..i]
      invariant |errors| * 100 + |buffer| == i
    {
      assert lines[..i + 1] == lines[..i] + [lines[i]];
      buffer := buffer + [lines[i]];
      if |buffer| >= 100 {
        assert Flatten(errors + [buffer]) == Flatten(errors) + buffer by {
          assert (errors + [buffer])[..|errors|] == errors;
        }
        errors := errors + [buffer];
        buffer := [];
      }
      i := i + 1;
    }
    assert lines[..i] == lines;
    final := if |buffer| > 0 then Some(buffer) else None;
  }
}
