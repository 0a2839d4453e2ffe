/**
 * `SlingshotMultipleValueToggle`: a row of icons with a selection circle
 * that is dragged like a slingshot. Dragging past half an icon's width
 * from the circle's centre moves the selection one step; tapping an icon
 * selects it. `SlingshotSliderCircle` bulges the circle toward the drag.
 */
module Slingshot {

  /**
   * `fullWidth / n` with `fullWidth = width * (1 + 1 / (n - 1))`: the
   * distance between neighbouring icon centres.
   */
  function IconWidth(width: real, iconCount: nat): (r: real)
    requires iconCount >= 2
    ensures r * (iconCount - 1) as real == width
    ensures 0.0 < width ==> 0.0 < r
  {
    var n := iconCount as real;
    var fullWidth := width * (1.0 + 1.0 / (n - 1.0));
    assert fullWidth == width * n / (n - 1.0) by {
      assert 1.0 + 1.0 / (n - 1.0) == n / (n - 1.0);
    }
    fullWidth / n
  }

  /** `iconWidth * index`: the x of the icon at `index`, also of the circle showing it. */
  function IconOffset(index: nat, width: real, iconCount: nat): (r: real)
    requires iconCount >= 2
    ensures r * (iconCount - 1) as real == index as real * width
  {
    var w := IconWidth(width, iconCount);
    assert w * index as real * (iconCount - 1) as real == w * (iconCount - 1) as real * index as real;
    w * index as real
  }

  /** The icons span the track exactly: the first at its left edge, the last at its right edge. */
  lemma {:induction false} IconsSpanTrack(width: real, iconCount: nat)
    requires iconCount >= 2
    ensures IconOffset(0, width, iconCount) == 0.0
    ensures IconOffset(iconCount - 1, width, iconCount) == width
  {
    var r := IconOffset(iconCount - 1, width, iconCount);
    assert r * (iconCount - 1) as real == (iconCount - 1) as real * width;
    assert (r - width) * (iconCount - 1) as real == 0.0;
  }

  /** The drag position relative to the circle's centre, in half icon widths. */
  function DragDistance(x: real, circleX: real, iconWidth: real): (d: real)
    requires iconWidth > 0.0
    ensures d * iconWidth == 2.0 * (x - circleX)
  {
    (x - circleX) / iconWidth * 2.0
  }

  /** The first icon cannot be pulled left, nor the last one right. */
  function ClampDrag(d: real, selected: nat, iconCount: nat): (r: real)
    ensures r == d || r == 0.0
    ensures selected == 0 ==> 0.0 <= r
    ensures selected + 1 == iconCount ==> r <= 0.0
    ensures 0 < selected && selected + 1 != iconCount ==> r == d
  {
    var clamped := if selected == 0 && d < 0.0 then 0.0 else d;
    if selected == iconCount - 1 && clamped > 0.0 then 0.0 else clamped
  }

  /** The selection after a drag event: one step when the drag passes a whole half icon. */
  function Step(selected: nat, d: real): (r: int)
    ensures -1 <= r - selected <= 1
    ensures r > selected <==> d > 1.0
    ensures r < selected <==> d < -1.0
  {
    if d > 1.0 then selected + 1
    else if d < -1.0 then selected - 1
    else selected
  }

  /** A clamped drag keeps the selection on an icon: no underflow, no overflow. */
  lemma StepStaysOnIcons(selected: nat, d: real, iconCount: nat)
    requires selected < iconCount
    ensures 0 <= Step(selected, ClampDrag(d, selected, iconCount)) < iconCount
  {
  }

  /** `min(max(v, lo), hi)`. */
  function Clamp(v: real, lo: real, hi: real): (r: real)
    requires lo <= hi
    ensures lo <= r <= hi
    ensures lo <= v <= hi ==> r == v
  {
    if v < lo then lo else if v > hi then hi else v
  }

  lemma ClampBelow(v: real, lo: real, hi: real)
    requires v <= lo <= hi
    ensures Clamp(v, lo, hi) == lo
  {
  }

  lemma ClampAbove(v: real, lo: real, hi: real)
    requires lo <= hi <= v
    ensures Clamp(v, lo, hi) == hi
  {
  }

  /** How far the circle's left edge bulges for a drag distance, on a circle `height` high. */
  function LeftBulge(d: real, height: real): (r: real)
    requires 0.0 <= height
    ensures -height <= r <= 0.0
  {
    if d < 0.0 then (if d > -1.0 then d * height else -height) else 0.0
  }

  /** How far the circle's right edge bulges for a drag distance. */
  function RightBulge(d: real, height: real): (r: real)
    requires 0.0 <= height
    ensures 0.0 <= r <= height
  {
    if d > 0.0 then (if d < 1.0 then d * height else height) else 0.0
  }

  /** The left bulge is the drag scaled by the height, clamped to one height. */
  lemma {:induction false} LeftBulgeIsClampedDrag(d: real, height: real)
    requires 0.0 <= height
    ensures LeftBulge(d, height) == Clamp(d * height, -height, 0.0)
  {
    var v := d * height;
    if d <= -1.0 {
      assert (d + 1.0) * height <= 0.0;
      ClampBelow(v, -height, 0.0);
    } else if d < 0.0 {
      assert (d + 1.0) * height >= 0.0;
      assert d * height <= 0.0;
    } else {
      assert d * height >= 0.0;
      ClampAbove(v, -height, 0.0);
    }
  }

  /** The right bulge is the drag scaled by the height, clamped to one height. */
  lemma {:induction false} RightBulgeIsClampedDrag(d: real, height: real)
    requires 0.0 <= height
    ensures RightBulge(d, height) == Clamp(d * height, 0.0, height)
  {
    var v := d * height;
    if 1.0 <= d {
      assert (d - 1.0) * height >= 0.0;
      ClampAbove(v, 0.0, height);
    } else if 0.0 < d {
      assert (1.0 - d) * height >= 0.0;
      assert d * height >= 0.0;
    } else {
      assert d * height <= 0.0;
      ClampBelow(v, 0.0, height);
    }
  }

  class SlingshotMultipleValueToggle {
    /** `icons.count`. */
    const iconCount: nat
    /** `@Binding selectedValue` (a `UInt`). */
    var selectedValue: nat
    /** `@State dragDistance`. */
    var dragDistance: real
    /** `@State animatedValue`: the value the circle and icon colours show. */
    var animatedValue: nat

    /** With two or more icons, both values name an icon. */
    ghost predicate Valid()
      reads this
    {
      iconCount >= 2 ==> selectedValue < iconCount && animatedValue < iconCount
    }

    /** A toggle bound to `selectedValue`; `animatedValue` starts at 0 whatever the binding holds. */
    constructor (selectedValue: nat, iconCount: nat)
      requires iconCount >= 2 ==> selectedValue < iconCount
      ensures Valid()
      ensures this.iconCount == iconCount && this.selectedValue == selectedValue
      ensures animatedValue == 0 && dragDistance == 0.0
    {
      this.iconCount := iconCount;
      this.selectedValue := selectedValue;
      dragDistance := 0.0;
      animatedValue := 0;
    }

    /** `onChange(of: selectedValue)`: the shown value follows a changed selection. */
    method SelectedValueChanged(oldValue: nat)
      requires Valid()
      modifies this`animatedValue
      ensures Valid()
      ensures animatedValue == if selectedValue != oldValue then selectedValue else old(animatedValue)
    {
      if selectedValue != oldValue {
        animatedValue := selectedValue;
      }
    }

    /**
     * The circle's drag `onChanged` on a track `width` wide (the circle
     * exists only with two or more icons).
     */
    method DragChanged(x: real, width: real)
      requires Valid() && iconCount >= 2 && 0.0 < width
      modifies this
      ensures Valid()
      ensures dragDistance == ClampDrag(
        DragDistance(x, IconOffset(old(animatedValue), width, iconCount), IconWidth(width, iconCount)),
        old(selectedValue), iconCount)
      ensures selectedValue == Step(old(selectedValue), dragDistance)
      ensures animatedValue == if selectedValue != old(selectedValue) then selectedValue else old(animatedValue)
    {
      var oldValue := selectedValue;
      var iconWidth := IconWidth(width, iconCount);
      var iconPlacementOffset := iconWidth * animatedValue as real;
      var dragDistanceCalculation := (x - iconPlacementOffset) / iconWidth * 2.0;

      if selectedValue == 0 && dragDistanceCalculation < 0.0 {
        dragDistanceCalculation := 0.0;
      }
      if selectedValue == iconCount - 1 && dragDistanceCalculation > 0.0 {
        dragDistanceCalculation := 0.0;
      }

      dragDistance := dragDistanceCalculation;

      if dragDistanceCalculation > 1.0 {
        selectedValue := selectedValue + 1;
      } else if dragDistanceCalculation < -1.0 {
        selectedValue := selectedValue - 1;
      }

      SelectedValueChanged(oldValue);
    }

    /** The circle's drag `onEnded`: the circle springs back. */
    method DragEnded()
      requires Valid()
      modifies this`dragDistance
      ensures Valid() && dragDistance == 0.0
    {
      dragDistance := 0.0;
    }

    /** Tapping the icon at `index`; the icon currently shown ignores taps. */
    method IconTapped(index: nat)
      requires Valid() && iconCount >= 2 && index < iconCount && index != animatedValue
      modifies this
      ensures Valid()
      ensures selectedValue == index && dragDistance == old(dragDistance)
      ensures animatedValue == if index != old(selectedValue) then index else old(animatedValue)
    {
      var oldValue := selectedValue;
      selectedValue := index;
      SelectedValueChanged(oldValue);
    }
  }
}
