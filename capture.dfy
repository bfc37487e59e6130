/**
 * Capture-area resolution: a monitor plus an optional user rectangle become the
 * offsets and size handed to the encoder (miniscreenrecorder.py, start_recording).
 */
module Capture {
  import opened Wrappers

  /** A selected rectangle (x1, y1, x2, y2), as the area selector stores it. */
  datatype Rect = Rect(x1: int, y1: int, x2: int, y2: int)

  /** A monitor's origin on the virtual desktop and its size. */
  datatype Monitor = Monitor(x: int, y: int, width: int, height: int)

  /** What the encoder is told to grab: offsets on the desktop and a size. */
  datatype Region = Region(offsetX: int, offsetY: int, width: int, height: int)

  /** The two refusals: a degenerate selection, and one that is empty once trimmed to even size. */
  datatype AreaError = InvalidArea | AdjustedAreaEmpty

  datatype Target = Captured(region: Region) | Refused(reason: AreaError)

  /** `d -= d % 2` for a positive d: the largest even number not above d. */
  function EvenDown(d: int): (r: int)
    requires d > 0
    ensures r % 2 == 0 && d - 1 <= r <= d
    ensures r == d <==> d % 2 == 0
  {
    d - d % 2
  }

  /**
   * Without an area the whole monitor is grabbed at its own origin. With one,
   * a width or height <= 0 is refused first; then each is trimmed to even and
   * a result of 0 is refused; otherwise the offsets are the area's top-left
   * plus the monitor's origin.
   */
  function Resolve(area: Option<Rect>, m: Monitor): (t: Target)
    ensures area.None? ==> t == Captured(Region(m.x, m.y, m.width, m.height))
    ensures area.Some? ==>
      var w, h := area.value.x2 - area.value.x1, area.value.y2 - area.value.y1;
      && (t == Refused(InvalidArea) <==> w <= 0 || h <= 0)
      && (t == Refused(AdjustedAreaEmpty) <==> w > 0 && h > 0 && (w == 1 || h == 1))
      && (t.Captured? ==>
            && t.region.offsetX == area.value.x1 + m.x
            && t.region.offsetY == area.value.y1 + m.y
            && 0 < t.region.width && t.region.width % 2 == 0 && w - 1 <= t.region.width <= w
            && 0 < t.region.height && t.region.height % 2 == 0 && h - 1 <= t.region.height <= h)
  {
    match area
    case None =>
      var x1, y1 := 0, 0;
      Captured(Region(x1 + m.x, y1 + m.y, m.width, m.height))
    case Some(r) =>
      var width, height := r.x2 - r.x1, r.y2 - r.y1;
      if width <= 0 || height <= 0 then Refused(InvalidArea)
      else
        var w, h := EvenDown(width), EvenDown(height);
        if w <= 0 || h <= 0 then Refused(AdjustedAreaEmpty)
        else Captured(Region(r.x1 + m.x, r.y1 + m.y, w, h))
  }

  /** The two worked cases: 101 x 50 becomes 100 x 50, and 1 x 50 is refused after trimming. */
  lemma ResolveExamples(m: Monitor)
    ensures Resolve(Some(Rect(0, 0, 101, 50)), m) == Captured(Region(m.x, m.y, 100, 50))
    ensures Resolve(Some(Rect(0, 0, 1, 50)), m) == Refused(AdjustedAreaEmpty)
  {
  }
}
