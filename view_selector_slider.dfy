/**
 * `ViewSelectorSlider`: a three-position selector. A drag on the circle,
 * or a tap on the track shortly after a previous touch, selects the zone
 * under the finger and reports the new value when it changed.
 */
module ViewSelector {
  import opened Wrappers
  import opened Orbit

  /**
   * The zone a touch at `x` selects on a track `width` wide: the first
   * third and the last third, each shortened by 20 points in favour of
   * the middle.
   */
  function Zone(x: real, width: real): (z: int)
    ensures 0 <= z <= 2
  {
    if x <= width / 3.0 - 20.0 then 0
    else if x <= width / 3.0 * 2.0 + 20.0 then 1
    else 2
  }

  /** Touching further right never selects a zone further left. */
  lemma ZoneIsMonotone(x: real, y: real, width: real)
    requires x <= y
    ensures Zone(x, width) <= Zone(y, width)
  {
  }

  /** The x position of the selection circle's centre for a selected value. */
  function CirclePosition(valueSelected: int, width: real): (p: real)
    ensures 0 <= valueSelected <= 2 && 40.0 <= width ==> 20.0 <= p <= width - 20.0
  {
    if valueSelected == 0 then valueSelected as real * width / 2.0 + 20.0
    else if valueSelected == 1 then valueSelected as real * width / 2.0
    else width - 20.0
  }

  /**
   * On a track wider than 120 points, touching the selection circle's own
   * centre selects the value it already shows.
   */
  lemma {:induction false} CircleLiesInItsZone(valueSelected: int, width: real)
    requires 0 <= valueSelected <= 2 && 120.0 < width
    ensures Zone(CirclePosition(valueSelected, width), width) == valueSelected
  {
    if valueSelected == 0 {
      assert CirclePosition(0, width) == 20.0;
    } else if valueSelected == 1 {
      assert CirclePosition(1, width) == width / 2.0;
    }
  }

  /**
   * The tap gate: a tap counts only when the previous touch was less than
   * five seconds ago (`lastTap.timeIntervalSinceNow > -5`).
   */
  function TapGateOpen(lastTap: Option<Instant>, now: Instant): (open: bool)
    ensures lastTap.None? ==> !open
    ensures lastTap.Some? ==> (open <==> now - lastTap.value < 5.0)
  {
    match lastTap
    case None => false
    case Some(t) => t - now > -5.0
  }

  class ViewSelectorSlider {
    /** `@State valueSelected`. */
    var valueSelected: int
    /** `@State dragging`: the track is highlighted. */
    var dragging: bool
    /** `@State lastTap`: when the selector was last touched. */
    var lastTap: Option<Instant>
    /** The values passed to `onValueChanged`, oldest first. */
    var reported: seq<int>

    /**
     * The selection is one of the three zones; the callback only ever
     * reported changes, and its last report is the current selection.
     */
    ghost predicate Valid()
      reads this
    {
      && 0 <= valueSelected <= 2
      && (forall i :: 0 <= i < |reported| ==> 0 <= reported[i] <= 2)
      && (reported == [] ==> valueSelected == 0)
      && (reported != [] ==> reported[0] != 0 && reported[|reported| - 1] == valueSelected)
      && (forall i :: 0 < i < |reported| ==> reported[i] != reported[i - 1])
    }

    constructor ()
      ensures Valid()
      ensures valueSelected == 0 && !dragging && lastTap == None && reported == []
    {
      valueSelected := 0;
      dragging := false;
      lastTap := None;
      reported := [];
    }

    /** Select `zone`, reporting it when it differs from the current value. */
    method Select(zone: int)
      requires Valid() && 0 <= zone <= 2
      modifies this
      ensures Valid()
      ensures valueSelected == zone
      ensures reported == old(reported) + if zone != old(valueSelected) then [zone] else []
      ensures dragging == old(dragging) && lastTap == old(lastTap)
    {
      if valueSelected != zone {
        valueSelected := zone;
        reported := reported + [zone];
      }
    }

    /** The circle's drag `onChanged`: mark the touch, then select the zone under it. */
    method DragChanged(x: real, width: real, now: Instant)
      requires Valid()
      modifies this
      ensures Valid()
      ensures lastTap == Some(now) && dragging
      ensures valueSelected == Zone(x, width)
      ensures reported == old(reported) + if Zone(x, width) != old(valueSelected) then [Zone(x, width)] else []
    {
      lastTap := Some(now);
      dragging := true;
      Select(Zone(x, width));
    }

    /** The circle's drag `onEnded`. */
    method DragEnded()
      requires Valid()
      modifies this
      ensures Valid()
      ensures !dragging
      ensures valueSelected == old(valueSelected) && lastTap == old(lastTap) && reported == old(reported)
    {
      dragging := false;
    }

    /**
     * The track's tap `onEnded`: select the zone under the tap only when the
     * tap gate is open; then mark the touch. `dragging` is set and cleared
     * again in the same handler (the delayed animation of the clearing is
     * what keeps the highlight on screen), so it ends false.
     */
    method TapEnded(x: real, width: real, now: Instant)
      requires Valid()
      modifies this
      ensures Valid()
      ensures lastTap == Some(now) && !dragging
      ensures TapGateOpen(old(lastTap), now) ==> (valueSelected == Zone(x, width)
        && reported == old(reported) + if Zone(x, width) != old(valueSelected) then [Zone(x, width)] else [])
      ensures !TapGateOpen(old(lastTap), now) ==> valueSelected == old(valueSelected) && reported == old(reported)
    {
      if TapGateOpen(lastTap, now) {
        Select(Zone(x, width));
      }
      lastTap := Some(now);
      dragging := true;
      dragging := false;
    }
  }

  /** A first tap, with no earlier touch, never changes the selection. */
  method FirstTapSelectsNothing(x: real, width: real, now: Instant) returns (selected: int, reported: seq<int>)
    ensures selected == 0 && reported == []
  {
    var slider := new ViewSelectorSlider();
    slider.TapEnded(x, width, now);
    selected, reported := slider.valueSelected, slider.reported;
  }
}
