/**
 * The full-screen area selector (area_selector.py): a press and a release
 * span a rectangle, a drag redraws the rectangle and two guide lines, and
 * closing hands the selection to the callback.
 */
module Selector {
  import opened Wrappers
  import opened Capture

  /** The items of a list of canvas identifiers. */
  function Items(ids: seq<nat>): set<nat>
  {
    set i | i in ids
  }

  function Min(a: int, b: int): int { if a <= b then a else b }
  function Max(a: int, b: int): int { if a <= b then b else a }

  /**
   * on_button_release: a release on the press's column or row selects
   * nothing; otherwise the corners are sorted into top-left and bottom-right.
   */
  function Normalize(startX: int, startY: int, endX: int, endY: int): (area: Option<Rect>)
    ensures area.None? <==> startX == endX || startY == endY
    ensures area.Some? ==>
      && area.value.x1 < area.value.x2 && area.value.y1 < area.value.y2
      && {area.value.x1, area.value.x2} == {startX, endX}
      && {area.value.y1, area.value.y2} == {startY, endY}
  {
    if startX == endX || startY == endY then None
    else Some(Rect(Min(startX, endX), Min(startY, endY), Max(startX, endX), Max(startY, endY)))
  }

  /** Dragging from either corner to the other selects the same area. */
  lemma NormalizeSymmetric(startX: int, startY: int, endX: int, endY: int)
    ensures Normalize(startX, startY, endX, endY) == Normalize(endX, endY, startX, startY)
    ensures Normalize(startX, startY, endX, endY) == Normalize(startX, endY, endX, startY)
  {
  }

  /** A selected area always clears start_recording's first check, and is refused only when one side is 1. */
  lemma SelectedAreaIsValid(startX: int, startY: int, endX: int, endY: int, m: Monitor)
    requires Normalize(startX, startY, endX, endY).Some?
    ensures var area := Normalize(startX, startY, endX, endY);
      && Resolve(area, m) != Refused(InvalidArea)
      && (Resolve(area, m).Refused? <==> (endX - startX == 1 || startX - endX == 1 || endY - startY == 1 || startY - endY == 1))
  {
  }

  /**
   * The selector's fields, and the canvas it draws on: `canvas` holds the
   * identifiers of the items drawn, `nextItem` the identifier Tk hands out
   * next, and `delivered` the values passed to the callback so far.
   */
  class AreaSelector {
    var startX: int
    var startY: int
    var rect: Option<nat>
    var guideLines: seq<nat>
    var recordArea: Option<Rect>
    var canvas: set<nat>
    var nextItem: nat
    var open: bool
    var delivered: seq<Option<Rect>>

    /** Every drawn item was handed out by this canvas. */
    ghost predicate Valid()
      reads this
    {
      (forall i :: i in canvas ==> 0 < i < nextItem) && nextItem > 0
    }

    constructor ()
      ensures Valid() && rect == None && guideLines == [] && recordArea == None
      ensures !open && delivered == [] && canvas == {}
    {
      startX, startY := 0, 0;
      rect := None;
      guideLines := [];
      recordArea := None;
      canvas := {};
      nextItem := 1;
      open := false;
      delivered := [];
    }

    /** select_area: a fresh canvas in a new window; rectangle and guide lines keep their old values. */
    method SelectArea()
      modifies this
      ensures Valid() && open && canvas == {} && nextItem == 1
      ensures rect == old(rect) && guideLines == old(guideLines) && recordArea == old(recordArea)
      ensures delivered == old(delivered) && startX == old(startX) && startY == old(startY)
    {
      open := true;
      canvas := {};
      nextItem := 1;
    }

    /** create_rectangle / create_line: a new item with the next identifier. */
    method Create() returns (item: nat)
      modifies this
      requires Valid()
      ensures Valid() && item == old(nextItem) && item !in old(canvas)
      ensures canvas == old(canvas) + {item} && nextItem == old(nextItem) + 1
      ensures rect == old(rect) && guideLines == old(guideLines) && recordArea == old(recordArea)
      ensures open == old(open) && delivered == old(delivered) && startX == old(startX) && startY == old(startY)
    {
      item := nextItem;
      canvas := canvas + {item};
      nextItem := nextItem + 1;
    }

    /** `for line in items: canvas.delete(line)`: deleting an item not drawn does nothing. */
    method DeleteAll(items: seq<nat>)
      modifies this
      requires Valid()
      ensures Valid() && canvas == old(canvas) - Items(items)
      ensures nextItem == old(nextItem) && rect == old(rect) && guideLines == old(guideLines)
      ensures recordArea == old(recordArea) && open == old(open) && delivered == old(delivered)
      ensures startX == old(startX) && startY == old(startY)
    {
      var i := 0;
      while i < |items|
        invariant 0 <= i <= |items|
        invariant Valid()
        invariant canvas == old(canvas) - Items(items[..i])
        invariant unchanged(`nextItem, `rect, `guideLines, `recordArea, `open, `delivered, `startX, `startY)
      {
        assert Items(items[..i + 1]) == Items(items[..i]) + {items[i]} by {
          assert items[..i + 1] == items[..i] + [items[i]];
        }
        canvas := canvas - {items[i]};
        i := i + 1;
      }
      assert items[..i] == items;
    }

    /** on_button_press: remember the corner, forget the rectangle item. */
    method OnButtonPress(x: int, y: int)
      modifies this
      ensures startX == x && startY == y && rect == None
      ensures guideLines == old(guideLines) && canvas == old(canvas) && nextItem == old(nextItem)
      ensures recordArea == old(recordArea) && open == old(open) && delivered == old(delivered)
    {
      startX, startY := x, y;
      rect := None;
    }

    /**
     * on_mouse_drag: the old rectangle and the old guide lines are deleted
     * and a new rectangle and exactly two new guide lines are drawn.
     */
    method OnMouseDrag(x: int, y: int)
      modifies this
      requires Valid()
      ensures Valid()
      ensures rect == Some(old(nextItem)) && guideLines == [old(nextItem) + 1, old(nextItem) + 2]
      ensures canvas == ((old(canvas) - (if old(rect).Some? then {old(rect).value} else {})) + {old(nextItem)})
                        - Items(old(guideLines)) + {old(nextItem) + 1, old(nextItem) + 2}
      ensures recordArea == old(recordArea) && open == old(open) && delivered == old(delivered)
      ensures startX == old(startX) && startY == old(startY) && nextItem == old(nextItem) + 3
    {
      if rect.Some? {
        DeleteAll([rect.value]);
        assert Items([old(rect).value]) == {old(rect).value};
      }
      var r := Create();
      rect := Some(r);
      DeleteAll(guideLines);
      guideLines := [];
      var vertical := Create();
      var horizontal := Create();
      guideLines := [vertical, horizontal];
    }

    /** cleanup_and_close: erase the drawing, close the window, and hand the current area to the callback. */
    method CleanupAndClose()
      modifies this
      requires Valid()
      ensures Valid() && !open && delivered == old(delivered) + [old(recordArea)]
      ensures canvas == old(canvas) - (if old(rect).Some? then {old(rect).value} else {})
                                    - Items(old(guideLines))
      ensures recordArea == old(recordArea) && rect == old(rect) && guideLines == old(guideLines)
      ensures nextItem == old(nextItem) && startX == old(startX) && startY == old(startY)
    {
      if rect.Some? {
        DeleteAll([rect.value]);
        assert Items([old(rect).value]) == {old(rect).value};
      }
      DeleteAll(guideLines);
      open := false;
      delivered := delivered + [recordArea];
    }

    /** on_button_release: the normalised area is stored and delivered. */
    method OnButtonRelease(x: int, y: int)
      modifies this
      requires Valid()
      ensures Valid() && !open
      ensures recordArea == Normalize(old(startX), old(startY), x, y)
      ensures delivered == old(delivered) + [Normalize(old(startX), old(startY), x, y)]
      ensures canvas == old(canvas) - (if old(rect).Some? then {old(rect).value} else {})
                                    - Items(old(guideLines))
      ensures rect == old(rect) && guideLines == old(guideLines) && nextItem == old(nextItem)
      ensures startX == old(startX) && startY == old(startY)
    {
      recordArea := Normalize(startX, startY, x, y);
      CleanupAndClose();
    }

    /** cancel_selection: whatever was selected before, the callback gets None. */
    method CancelSelection()
      modifies this
      requires Valid()
      ensures Valid() && !open && recordArea == None
      ensures delivered == old(delivered) + [None]
      ensures canvas == old(canvas) - (if old(rect).Some? then {old(rect).value} else {})
                                    - Items(old(guideLines))
      ensures rect == old(rect) && guideLines == old(guideLines) && nextItem == old(nextItem)
      ensures startX == old(startX) && startY == old(startY)
    {
      recordArea := None;
      CleanupAndClose();
    }
  }
}
