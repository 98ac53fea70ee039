/**
 * The viewport arithmetic of the annotation window: the fit-to-canvas zoom,
 * the cursor-anchored wheel zoom, the absolute zoom of the zoom scrollbar
 * and the percentage reported back to it, drag panning, and where the
 * scaled image is placed on the canvas.
 *
 * Zoom and offsets are real numbers (the source computes them in floating
 * point); canvas and image sizes are whole pixels.
 */
module Viewport {
  import opened Builtins
  import opened Wrappers

  /** The zoom range, as multiples of the fit-to-canvas zoom. */
  const ZoomMinMult: real := 1.0
  const ZoomMaxMult: real := 5.0
  /** One wheel notch zooms in by this factor, or out by its reciprocal. */
  const ZoomStep: real := 1.2
  /** A wheel step changing the zoom by less than this is dropped; a scrollbar move must exceed it. */
  const ZoomEpsilon: real := 0.000001
  /** A canvas resize refits only when the zoom is this close to the fit zoom. */
  const RefitTolerance: real := 0.001

  function Abs(x: real): real {
    if x < 0.0 then -x else x
  }

  /** `max(min(v, hi), lo)`. */
  function Clamp(v: real, lo: real, hi: real): (r: real)
    ensures lo <= r
    ensures lo <= hi ==> r <= hi
    ensures lo <= v <= hi ==> r == v
    ensures v < lo ==> r == lo
    ensures lo <= hi < v ==> r == hi
  {
    var m := if hi < v then hi else v;
    if m < lo then lo else m
  }

  /**
   * The zoom state of the window. `hasBounds` is false until the first
   * successful fit creates `zoomMin` and `zoomMax`.
   */
  datatype View = View(zoom: real, fit: real, hasBounds: bool, zoomMin: real, zoomMax: real,
                       imageX: real, imageY: real)

  /** The window's first view, before any image has been fitted. */
  const InitialView: View := View(1.0, 1.0, false, 0.0, 0.0, 0.0, 0.0)

  /** The bounds always follow the fit zoom, and the zoom stays positive once they exist. */
  ghost predicate ViewValid(v: View) {
    v.fit > 0.0 &&
    (v.hasBounds ==>
      v.zoom > 0.0 && v.zoomMin == v.fit * ZoomMinMult && v.zoomMax == v.fit * ZoomMaxMult)
  }

  /** The largest zoom at which the whole image fits the canvas: `min(cw / iw, ch / ih)`. */
  function FitZoom(imageW: int, imageH: int, canvasW: int, canvasH: int): (f: real)
    requires imageW > 0 && imageH > 0 && canvasW > 0 && canvasH > 0
    ensures f > 0.0
  {
    var fx := canvasW as real / imageW as real;
    var fy := canvasH as real / imageH as real;
    if fy < fx then fy else fx
  }

  /** At the fit zoom the image fits both sides of the canvas and fills one of them. */
  lemma FitZoomFits(imageW: int, imageH: int, canvasW: int, canvasH: int)
    requires imageW > 0 && imageH > 0 && canvasW > 0 && canvasH > 0
    ensures var f := FitZoom(imageW, imageH, canvasW, canvasH);
            f * imageW as real <= canvasW as real && f * imageH as real <= canvasH as real &&
            (f * imageW as real == canvasW as real || f * imageH as real == canvasH as real)
  {
    var fx := canvasW as real / imageW as real;
    var fy := canvasH as real / imageH as real;
    assert fx * imageW as real == canvasW as real;
    assert fy * imageH as real == canvasH as real;
    if fy < fx {
      assert fy * imageW as real <= fx * imageW as real;
    } else {
      assert fx * imageH as real <= fy * imageH as real;
    }
  }

  /**
   * `_fit_image_to_canvas`: on a measured canvas (both sides above one
   * pixel) the view shows the whole image, centred, at 100%; on a canvas
   * not laid out yet nothing changes.
   */
  function Fit(v: View, imageW: int, imageH: int, canvasW: int, canvasH: int): (r: View)
    requires ViewValid(v) && imageW > 0 && imageH > 0
    ensures ViewValid(r)
    ensures canvasW <= 1 || canvasH <= 1 ==> r == v
    ensures canvasW > 1 && canvasH > 1 ==>
              r.hasBounds && r.zoom == r.fit == FitZoom(imageW, imageH, canvasW, canvasH) &&
              r.zoomMin <= r.zoom <= r.zoomMax && r.imageX == 0.0 && r.imageY == 0.0
  {
    if canvasW <= 1 || canvasH <= 1 then v
    else
      var f := FitZoom(imageW, imageH, canvasW, canvasH);
      View(f, f, true, f * ZoomMinMult, f * ZoomMaxMult, 0.0, 0.0)
  }

  /** An 800x600 image on a 400x300 canvas is shown at half size. */
  lemma FitExample()
    ensures var r := Fit(InitialView, 800, 600, 400, 300);
            r.zoom == 0.5 && r.fit == 0.5 && r.zoomMin == 0.5 && r.zoomMax == 2.5 &&
            r.imageX == 0.0 && r.imageY == 0.0
  {
  }

  /** `load_image`: zoom back to 1.0, offsets to 0, then fit. */
  function ForNewImage(v: View, imageW: int, imageH: int, canvasW: int, canvasH: int): (r: View)
    requires ViewValid(v) && imageW > 0 && imageH > 0
    ensures ViewValid(r)
    ensures r.imageX == 0.0 && r.imageY == 0.0
    ensures canvasW > 1 && canvasH > 1 ==> r.zoom == r.fit == FitZoom(imageW, imageH, canvasW, canvasH)
    ensures canvasW <= 1 || canvasH <= 1 ==> r.zoom == 1.0 && r.fit == v.fit
  {
    Fit(v.(zoom := 1.0, imageX := 0.0, imageY := 0.0), imageW, imageH, canvasW, canvasH)
  }

  /** A view just fitted to the canvas reports 100% to the zoom scrollbar. */
  lemma FitShowsHundredPercent(v: View, imageW: int, imageH: int, canvasW: int, canvasH: int)
    requires ViewValid(v) && imageW > 0 && imageH > 0 && canvasW > 1 && canvasH > 1
    ensures var r := Fit(v, imageW, imageH, canvasW, canvasH);
            Percent(r.zoom, r.fit) == ZoomMinMult * 100.0
  {
    var r := Fit(v, imageW, imageH, canvasW, canvasH);
    assert r.zoom / r.fit == 1.0;
  }

  /** `_on_canvas_configure`: refit only when the view is at the fit zoom. */
  function Configure(v: View, imageW: int, imageH: int, canvasW: int, canvasH: int): (r: View)
    requires ViewValid(v) && imageW > 0 && imageH > 0
    ensures ViewValid(r)
  {
    if Abs(v.zoom - v.fit) < RefitTolerance then Fit(v, imageW, imageH, canvasW, canvasH) else v
  }

  /** A resize refits a view at the fit zoom to the new canvas and leaves a zoomed view alone. */
  lemma ConfigureRefitsOnlyAtFit(v: View, imageW: int, imageH: int, canvasW: int, canvasH: int)
    requires ViewValid(v) && imageW > 0 && imageH > 0
    ensures Abs(v.zoom - v.fit) >= RefitTolerance ==> Configure(v, imageW, imageH, canvasW, canvasH) == v
    ensures Abs(v.zoom - v.fit) < RefitTolerance && canvasW > 1 && canvasH > 1 ==>
              Configure(v, imageW, imageH, canvasW, canvasH).zoom == FitZoom(imageW, imageH, canvasW, canvasH)
  {
  }

  /** Which way a wheel event zooms: by the sign of `delta`, or by button 4 on X11. */
  function ZoomIn(delta: int, num: int): (zoomIn: bool)
    ensures delta > 0 ==> zoomIn
    ensures delta < 0 ==> !zoomIn
    ensures delta == 0 ==> (zoomIn <==> num == 4)
  {
    if delta != 0 then delta > 0 else num == 4
  }

  function StepFactor(zoomIn: bool): (f: real)
    ensures f > 0.0
  {
    if zoomIn then ZoomStep else 1.0 / ZoomStep
  }

  /** The zoom a wheel step aims at, clamped into the bounds. */
  function WheelTarget(v: View, zoomIn: bool): (z: real)
    ensures v.zoomMin <= v.zoomMax ==> v.zoomMin <= z <= v.zoomMax
    ensures v.zoomMin <= v.zoom * StepFactor(zoomIn) <= v.zoomMax ==> z == v.zoom * StepFactor(zoomIn)
  {
    Clamp(v.zoom * StepFactor(zoomIn), v.zoomMin, v.zoomMax)
  }

  /** Where the wheel handler takes the image centre to be, on one axis. */
  function WheelCentre(canvasSide: int, offset: real): real {
    (canvasSide / 2) as real + offset
  }

  /**
   * The wheel's offset update on one axis: the image moves so that the
   * cursor at p keeps its distance from the image centre, scaled by ratio.
   */
  function AnchoredOffset(p: real, canvasSide: int, offset: real, ratio: real): (r: real)
    ensures p - WheelCentre(canvasSide, r) == (p - WheelCentre(canvasSide, offset)) * ratio
  {
    var rel := p - WheelCentre(canvasSide, offset);
    offset - (rel * ratio - rel)
  }

  /**
   * `_on_mousewheel`: zoom by one step towards the cursor (px, py), clamped
   * into the bounds; a change under ZoomEpsilon leaves the view as it is.
   */
  function Wheel(v: View, canvasW: int, canvasH: int, px: real, py: real, zoomIn: bool): (r: View)
    requires ViewValid(v) && v.hasBounds
    ensures ViewValid(r) && r.hasBounds
    ensures r == v || (r.zoom == WheelTarget(v, zoomIn) && r.zoomMin <= r.zoom <= r.zoomMax)
    ensures r.fit == v.fit
  {
    var newZoom := WheelTarget(v, zoomIn);
    if Abs(newZoom - v.zoom) < ZoomEpsilon then v
    else
      var ratio := newZoom / v.zoom;
      v.(zoom := newZoom, imageX := AnchoredOffset(px, canvasW, v.imageX, ratio),
         imageY := AnchoredOffset(py, canvasH, v.imageY, ratio))
  }

  /** A wheel step does nothing exactly when the clamped zoom moves by less than ZoomEpsilon. */
  lemma WheelNoOp(v: View, canvasW: int, canvasH: int, px: real, py: real, zoomIn: bool)
    requires ViewValid(v) && v.hasBounds
    ensures Wheel(v, canvasW, canvasH, px, py, zoomIn) == v <==>
            Abs(WheelTarget(v, zoomIn) - v.zoom) < ZoomEpsilon
  {
  }

  /** A wheel step that is not dropped sets the clamped zoom and anchors both offsets at the cursor. */
  lemma WheelStep(v: View, canvasW: int, canvasH: int, px: real, py: real, zoomIn: bool, z: real, ratio: real)
    requires ViewValid(v) && v.hasBounds
    requires z == WheelTarget(v, zoomIn) && Abs(z - v.zoom) >= ZoomEpsilon && ratio == z / v.zoom
    ensures Wheel(v, canvasW, canvasH, px, py, zoomIn) ==
            v.(zoom := z, imageX := AnchoredOffset(px, canvasW, v.imageX, ratio),
               imageY := AnchoredOffset(py, canvasH, v.imageY, ratio))
  {
  }

  lemma ScaledOffset(rel: real, ratio: real, oldZoom: real, newZoom: real)
    requires oldZoom > 0.0 && newZoom > 0.0 && ratio == newZoom / oldZoom
    ensures (rel * ratio) / newZoom == rel / oldZoom
  {
    calc {
      (rel * ratio) / newZoom;
      (rel * (newZoom / oldZoom)) / newZoom;
      { assert rel * (newZoom / oldZoom) == (rel / oldZoom) * newZoom; }
      ((rel / oldZoom) * newZoom) / newZoom;
      rel / oldZoom;
    }
  }

  /** On one axis, the anchored offset keeps the cursor's distance from the centre in image pixels. */
  lemma AnchorAxis(p: real, canvasSide: int, offset: real, oldZoom: real, newZoom: real)
    requires oldZoom > 0.0 && newZoom > 0.0
    ensures (p - WheelCentre(canvasSide, AnchoredOffset(p, canvasSide, offset, newZoom / oldZoom))) / newZoom
            == (p - WheelCentre(canvasSide, offset)) / oldZoom
  {
    var rel := p - WheelCentre(canvasSide, offset);
    var ratio := newZoom / oldZoom;
    assert p - WheelCentre(canvasSide, AnchoredOffset(p, canvasSide, offset, ratio)) == rel * ratio;
    ScaledOffset(rel, ratio, oldZoom, newZoom);
  }

  /**
   * The wheel keeps the image point under the cursor in place: the cursor's
   * distance from the handler's image centre, in image pixels, is the same
   * before and after the step.
   */
  lemma WheelKeepsCursorPoint(v: View, canvasW: int, canvasH: int, px: real, py: real, zoomIn: bool)
    requires ViewValid(v) && v.hasBounds
    ensures var r := Wheel(v, canvasW, canvasH, px, py, zoomIn);
            (px - WheelCentre(canvasW, r.imageX)) / r.zoom == (px - WheelCentre(canvasW, v.imageX)) / v.zoom &&
            (py - WheelCentre(canvasH, r.imageY)) / r.zoom == (py - WheelCentre(canvasH, v.imageY)) / v.zoom
  {
    var r := Wheel(v, canvasW, canvasH, px, py, zoomIn);
    if r != v {
      assert r.imageX == AnchoredOffset(px, canvasW, v.imageX, r.zoom / v.zoom);
      assert r.imageY == AnchoredOffset(py, canvasH, v.imageY, r.zoom / v.zoom);
      AnchorAxis(px, canvasW, v.imageX, v.zoom, r.zoom);
      AnchorAxis(py, canvasH, v.imageY, v.zoom, r.zoom);
    }
  }

  /** One wheel event: the cursor position and the direction. */
  datatype WheelEvent = WheelEvent(px: real, py: real, zoomIn: bool)

  /** A run of wheel events on a canvas of fixed size. */
  function Wheels(v: View, canvasW: int, canvasH: int, events: seq<WheelEvent>): (r: View)
    requires ViewValid(v) && v.hasBounds
    ensures ViewValid(r) && r.hasBounds && r.fit == v.fit
    decreases |events|
  {
    if events == [] then v
    else
      var e := events[0];
      Wheels(Wheel(v, canvasW, canvasH, e.px, e.py, e.zoomIn), canvasW, canvasH, events[1..])
  }

  /** No run of wheel events takes an in-range zoom out of the bounds. */
  lemma {:induction false} WheelsStayInBounds(v: View, canvasW: int, canvasH: int, events: seq<WheelEvent>)
    requires ViewValid(v) && v.hasBounds && v.zoomMin <= v.zoom <= v.zoomMax
    ensures var r := Wheels(v, canvasW, canvasH, events);
            r.zoomMin <= r.zoom <= r.zoomMax
    decreases |events|
  {
    if events != [] {
      var e := events[0];
      var next := Wheel(v, canvasW, canvasH, e.px, e.py, e.zoomIn);
      WheelsStayInBounds(next, canvasW, canvasH, events[1..]);
    }
  }

  /**
   * One notch in and one notch out at the same cursor position, away from
   * the bounds, give back the same view: zoom and offsets.
   */
  lemma WheelInThenOut(v: View, canvasW: int, canvasH: int, px: real, py: real)
    requires ViewValid(v) && v.hasBounds
    requires v.zoomMin <= v.zoom && v.zoom * ZoomStep <= v.zoomMax
    requires v.zoom * (ZoomStep - 1.0) >= ZoomEpsilon
    ensures Wheel(Wheel(v, canvasW, canvasH, px, py, true), canvasW, canvasH, px, py, false) == v
  {
    WheelUnclamped(v, canvasW, canvasH, px, py, true);
    var up := Wheel(v, canvasW, canvasH, px, py, true);
    assert up.zoom == v.zoom * ZoomStep && StepFactor(false) == 1.0 / ZoomStep;
    assert up.zoom * StepFactor(false) == v.zoom;
    assert Abs(v.zoom - up.zoom) == v.zoom * (ZoomStep - 1.0);
    WheelUnclamped(up, canvasW, canvasH, px, py, false);
    AnchorInThenOut(px, canvasW, v.imageX);
    AnchorInThenOut(py, canvasH, v.imageY);
  }

  /** A wheel step whose target lies inside the bounds multiplies the zoom by the step factor. */
  lemma WheelUnclamped(v: View, canvasW: int, canvasH: int, px: real, py: real, zoomIn: bool)
    requires ViewValid(v) && v.hasBounds
    requires v.zoomMin <= v.zoom * StepFactor(zoomIn) <= v.zoomMax
    requires Abs(v.zoom * StepFactor(zoomIn) - v.zoom) >= ZoomEpsilon
    ensures var f := StepFactor(zoomIn);
            Wheel(v, canvasW, canvasH, px, py, zoomIn) ==
            v.(zoom := v.zoom * f, imageX := AnchoredOffset(px, canvasW, v.imageX, f),
               imageY := AnchoredOffset(py, canvasH, v.imageY, f))
  {
    var f := StepFactor(zoomIn);
    DivCancel(v.zoom, f);
    WheelStep(v, canvasW, canvasH, px, py, zoomIn, v.zoom * f, f);
  }

  lemma DivCancel(z: real, f: real)
    requires z > 0.0
    ensures (z * f) / z == f
  {
  }

  /** On one axis, anchoring with ratio ZoomStep and then with its reciprocal gives the offset back. */
  lemma AnchorInThenOut(p: real, canvasSide: int, offset: real)
    ensures AnchoredOffset(p, canvasSide, AnchoredOffset(p, canvasSide, offset, ZoomStep), 1.0 / ZoomStep) == offset
  {
    var rel := p - WheelCentre(canvasSide, offset);
    var up := AnchoredOffset(p, canvasSide, offset, ZoomStep);
    assert p - WheelCentre(canvasSide, up) == rel * ZoomStep;
    assert rel * ZoomStep * (1.0 / ZoomStep) == rel;
  }

  /** The zoom the scrollbar asks for: `percent` of the fit zoom, clamped once the bounds exist. */
  function ScrollZoom(v: View, percent: real): (z: real)
    ensures !v.hasBounds ==> z == v.fit * (percent / 100.0)
    ensures v.hasBounds && v.zoomMin <= v.zoomMax ==> v.zoomMin <= z <= v.zoomMax
  {
    var target := v.fit * (percent / 100.0);
    if v.hasBounds then Clamp(target, v.zoomMin, v.zoomMax) else target
  }

  /** Scales a pan offset by the zoom ratio, as `-(-offset * ratio)`: the signs cancel. */
  function ScaleOffset(offset: real, ratio: real): (r: real)
    ensures r == offset * ratio
  {
    -((-offset) * ratio)
  }

  /**
   * `on_zoom_scrollbar`: the zoom becomes `percent` of the fit zoom,
   * clamped once the bounds exist, and the offsets scale with it so the
   * image point at the canvas centre stays put; only a change above
   * ZoomEpsilon is taken.
   */
  function Scroll(v: View, percent: real): (r: View)
    requires ViewValid(v)
    ensures ViewValid(r) && r.fit == v.fit && r.hasBounds == v.hasBounds
    ensures Abs(ScrollZoom(v, percent) - v.zoom) > ZoomEpsilon ==> r.zoom == ScrollZoom(v, percent)
    ensures Abs(ScrollZoom(v, percent) - v.zoom) <= ZoomEpsilon ==> r == v
    ensures v.hasBounds ==> r == v || r.zoomMin <= r.zoom <= r.zoomMax
  {
    var newZoom := ScrollZoom(v, percent);
    if Abs(newZoom - v.zoom) > ZoomEpsilon then
      if v.zoom != 0.0 then
        var ratio := newZoom / v.zoom;
        v.(zoom := newZoom, imageX := ScaleOffset(v.imageX, ratio), imageY := ScaleOffset(v.imageY, ratio))
      else
        v.(zoom := newZoom)
    else
      v
  }

  /** The scrollbar zoom keeps the image point at the canvas centre in place. */
  lemma ScrollKeepsCentrePoint(v: View, percent: real)
    requires ViewValid(v) && v.hasBounds
    ensures var r := Scroll(v, percent);
            r.imageX / r.zoom == v.imageX / v.zoom && r.imageY / r.zoom == v.imageY / v.zoom
  {
    var r := Scroll(v, percent);
    if r != v {
      var z := ScrollZoom(v, percent);
      assert r == v.(zoom := z, imageX := ScaleOffset(v.imageX, z / v.zoom),
                     imageY := ScaleOffset(v.imageY, z / v.zoom));
      ScaleOffsetKeepsPoint(v.imageX, v.zoom, z);
      ScaleOffsetKeepsPoint(v.imageY, v.zoom, z);
    }
  }

  lemma ScaleOffsetKeepsPoint(offset: real, oldZoom: real, newZoom: real)
    requires oldZoom > 0.0 && newZoom > 0.0
    ensures ScaleOffset(offset, newZoom / oldZoom) / newZoom == offset / oldZoom
  {
    var ratio := newZoom / oldZoom;
    assert ScaleOffset(offset, ratio) == offset * ratio;
    ScaledOffset(offset, ratio, oldZoom, newZoom);
  }

  /** `_update_zoom_scrollbar`: the zoom as a percentage of the fit zoom, within the scrollbar's range. */
  function Percent(zoom: real, fit: real): (p: real)
    requires fit > 0.0
    ensures ZoomMinMult * 100.0 <= p <= ZoomMaxMult * 100.0
    ensures fit * ZoomMinMult <= zoom <= fit * ZoomMaxMult ==> p * fit == zoom * 100.0
  {
    Clamp((zoom / fit) * 100.0, ZoomMinMult * 100.0, ZoomMaxMult * 100.0)
  }

  lemma Cancel(a: real, b: real, f: real)
    requires f > 0.0 && a * f == b * f
    ensures a == b
  {
  }

  lemma PercentOfScaled(fit: real, percent: real)
    requires fit > 0.0 && ZoomMinMult * 100.0 <= percent <= ZoomMaxMult * 100.0
    ensures Percent(fit * (percent / 100.0), fit) == percent
  {
    var target := fit * (percent / 100.0);
    ScaleWithin(fit, percent / 100.0, ZoomMinMult, ZoomMaxMult);
    var back := Percent(target, fit);
    assert back * fit == target * 100.0;
    assert target * 100.0 == percent * fit;
    Cancel(back, percent, fit);
  }

  lemma ScaleWithin(fit: real, m: real, lo: real, hi: real)
    requires fit > 0.0 && lo <= m <= hi
    ensures fit * lo <= fit * m <= fit * hi
  {
  }

  /** Within the scrollbar's range the clamp never bites: the scrollbar asks for exactly `percent` of the fit zoom. */
  lemma ScrollZoomInRange(v: View, percent: real)
    requires ViewValid(v)
    requires ZoomMinMult * 100.0 <= percent <= ZoomMaxMult * 100.0
    ensures ScrollZoom(v, percent) == v.fit * (percent / 100.0)
    ensures v.fit <= ScrollZoom(v, percent) <= v.fit * ZoomMaxMult
  {
    var target := v.fit * (percent / 100.0);
    ScrollTargetInRange(v.fit, percent);
    assert v.fit * ZoomMinMult <= target <= v.fit * ZoomMaxMult;
    if v.hasBounds {
      assert v.zoomMin == v.fit * ZoomMinMult && v.zoomMax == v.fit * ZoomMaxMult;
      assert v.zoomMin <= target <= v.zoomMax;
      assert Clamp(target, v.zoomMin, v.zoomMax) == target;
    }
    assert ScrollZoom(v, percent) == target;
  }

  /** `percent` of the fit zoom, for a percentage in the scrollbar's range, lies between the fit zoom and its maximum multiple. */
  lemma ScrollTargetInRange(fit: real, percent: real)
    requires fit > 0.0 && ZoomMinMult * 100.0 <= percent <= ZoomMaxMult * 100.0
    ensures fit * ZoomMinMult <= fit * (percent / 100.0) <= fit * ZoomMaxMult
  {
    ScaleWithin(fit, percent / 100.0, ZoomMinMult, ZoomMaxMult);
  }

  /**
   * Moving the scrollbar to a percentage in its range and reading the
   * percentage back gives that percentage.
   */
  lemma ScrollThenPercent(v: View, percent: real)
    requires ViewValid(v)
    requires ZoomMinMult * 100.0 <= percent <= ZoomMaxMult * 100.0
    requires Abs(v.fit * (percent / 100.0) - v.zoom) > ZoomEpsilon
    ensures Percent(Scroll(v, percent).zoom, v.fit) == percent
  {
    ScrollZoomInRange(v, percent);
    PercentOfScaled(v.fit, percent);
  }

  /** Where `_show_image` draws the scaled image: its top-left corner and whole-pixel size. */
  datatype Placement = Placement(left: real, top: real, width: int, height: int)

  /**
   * The scaled size truncates `image size * zoom`; nothing is drawn when
   * either side truncates to zero. The image centre sits at the canvas
   * centre moved by the pan offset.
   */
  function Place(imageW: int, imageH: int, zoom: real, canvasW: int, canvasH: int, imageX: real, imageY: real)
    : (r: Option<Placement>)
    requires imageW > 0 && imageH > 0 && zoom > 0.0
    ensures r.Some? <==> Truncate(imageW as real * zoom) > 0 && Truncate(imageH as real * zoom) > 0
    ensures r.Some? ==>
              r.value.left + r.value.width as real / 2.0 == canvasW as real / 2.0 + imageX &&
              r.value.top + r.value.height as real / 2.0 == canvasH as real / 2.0 + imageY
    ensures r.Some? ==>
              r.value.width as real <= imageW as real * zoom < r.value.width as real + 1.0 &&
              r.value.height as real <= imageH as real * zoom < r.value.height as real + 1.0
  {
    var w := Truncate(imageW as real * zoom);
    var h := Truncate(imageH as real * zoom);
    if w > 0 && h > 0 then
      Some(Placement((canvasW - w) as real / 2.0 + imageX, (canvasH - h) as real / 2.0 + imageY, w, h))
    else
      None
  }

  /** The drag state: whether button 1 is held and where the pointer was last seen. */
  datatype Drag = Drag(panning: bool, startX: int, startY: int)

  const InitialDrag: Drag := Drag(false, 0, 0)

  /** `_on_pan_motion`: while dragging, move the image by the pointer's step. */
  function PanMotion(v: View, d: Drag, ex: int, ey: int): (r: (View, Drag))
    ensures !d.panning ==> r == (v, d)
    ensures d.panning ==> r.1 == Drag(true, ex, ey) &&
                          r.0 == v.(imageX := r.0.imageX, imageY := r.0.imageY)
    ensures d.panning ==> r.0.imageX - ex as real == v.imageX - d.startX as real &&
                          r.0.imageY - ey as real == v.imageY - d.startY as real
  {
    if d.panning then
      (v.(imageX := v.imageX + (ex - d.startX) as real, imageY := v.imageY + (ey - d.startY) as real),
       d.(startX := ex, startY := ey))
    else
      (v, d)
  }

  /** A pointer position reported by a motion event. */
  datatype Point = Point(x: int, y: int)

  function PanMotions(v: View, d: Drag, events: seq<Point>): (r: (View, Drag))
    decreases |events|
  {
    if events == [] then (v, d)
    else
      var next := PanMotion(v, d, events[0].x, events[0].y);
      PanMotions(next.0, next.1, events[1..])
  }

  /**
   * After a press at (startX, startY), any run of motions moves the image
   * by exactly the pointer's total displacement, with no bound, and
   * changes nothing else in the view.
   */
  lemma {:induction false} DragMovesByTotalDisplacement(v: View, d: Drag, events: seq<Point>)
    requires d.panning && events != []
    ensures var r := PanMotions(v, d, events);
            var last := events[|events| - 1];
            r.0 == v.(imageX := v.imageX + (last.x - d.startX) as real,
                      imageY := v.imageY + (last.y - d.startY) as real) &&
            r.1 == Drag(true, last.x, last.y)
    decreases |events|
  {
    var next := PanMotion(v, d, events[0].x, events[0].y);
    if |events| > 1 {
      DragMovesByTotalDisplacement(next.0, next.1, events[1..]);
      assert events[1..][|events[1..]| - 1] == events[|events| - 1];
    }
  }

  /** Motions with no button held change nothing. */
  lemma {:induction false} MotionWithoutPressIgnored(v: View, d: Drag, events: seq<Point>)
    requires !d.panning
    ensures PanMotions(v, d, events) == (v, d)
    decreases |events|
  {
    if events != [] {
      MotionWithoutPressIgnored(v, d, events[1..]);
    }
  }
}
