/** The view properties a layer canvas derives from its layer tree and its
    viewport: the largest visible model bounds, the minimum, default and
    maximum zoom factors, and the zoom step of the navigation control. The
    painting, layout and listener plumbing of the Swing component are not
    part of this model. */
module Swing {
  import opened Wrappers

  /** A rectangle in view or model coordinates. */
  datatype Rect = Rect(x: real, y: real, width: real, height: real)

  /** The empty rectangle at the origin. */
  const EmptyRect := Rect(0.0, 0.0, 0.0, 0.0)

  /** A layer of the tree. Image layers carry the square root of the absolute
      determinant of their image-to-model transform; other layers carry None. */
  datatype Layer = Layer(imageScale: Option<real>, modelBounds: Option<Rect>, children: seq<Layer>)

  // ---------------------------------------------------------------------------
  // Minimum zoom factor

  /** View extent over model extent, or 0 when the model extent is not positive. */
  function Ratio(viewExtent: real, modelExtent: real): real {
    if modelExtent > 0.0 then viewExtent / modelExtent else 0.0
  }

  /** Half the smaller positive ratio of view to model extent, half the only
      positive one, or 0 when neither is positive. Twice the result is the
      largest zoom that still fits the model into the view along each axis
      whose ratio is positive. */
  function ComputeMinZoomFactor(viewBounds: Rect, maxVisibleModelBounds: Rect): (r: real)
    ensures var sw := Ratio(viewBounds.width, maxVisibleModelBounds.width);
      var sh := Ratio(viewBounds.height, maxVisibleModelBounds.height);
      && r >= 0.0
      && (r == 0.0 <==> sw <= 0.0 && sh <= 0.0)
      && (r > 0.0 ==> (2.0 * r == sw || 2.0 * r == sh))
      && (sw > 0.0 ==> 2.0 * r <= sw)
      && (sh > 0.0 ==> 2.0 * r <= sh)
  {
    var vw := viewBounds.width;
    var vh := viewBounds.height;
    var mw := maxVisibleModelBounds.width;
    var mh := maxVisibleModelBounds.height;
    var sw := if mw > 0.0 then vw / mw else 0.0;
    var sh := if mh > 0.0 then vh / mh else 0.0;
    var s :=
      if sw > 0.0 && sh > 0.0 then (if sw <= sh then sw else sh)
      else if sw > 0.0 then sw
      else if sh > 0.0 then sh
      else 0.0;
    0.5 * s
  }

  // ---------------------------------------------------------------------------
  // Minimum image-to-model scale

  /** The scales of all image layers of the tree, in pre-order. */
  function Scales(layer: Layer): seq<real>
    decreases layer
  {
    (if layer.imageScale.Some? then [layer.imageScale.value] else []) + ChildrenScales(layer.children)
  }

  /** The scales of a sequence of sibling subtrees, in order. */
  function ChildrenScales(children: seq<Layer>): seq<real>
    decreases children
  {
    if children == [] then [] else ChildrenScales(children[..|children| - 1]) + Scales(children[|children| - 1])
  }

  /** One step of the accumulation: a positive scale replaces the minimum
      found so far when there is none yet or when it is smaller. */
  function UpdateMinScale(minScale: real, scale: real): real {
    if scale > 0.0 && (minScale <= 0.0 || scale < minScale) then scale else minScale
  }

  /** The accumulation over a sequence of scales, left to right. */
  function AccumulateMinScale(minScale: real, scales: seq<real>): real {
    if scales == [] then minScale
    else UpdateMinScale(AccumulateMinScale(minScale, scales[..|scales| - 1]), scales[|scales| - 1])
  }

  /** Accumulating over a concatenation is accumulating over each part in turn. */
  lemma {:induction false} AccumulateConcat(minScale: real, s: seq<real>, t: seq<real>)
    ensures AccumulateMinScale(minScale, s + t) == AccumulateMinScale(AccumulateMinScale(minScale, s), t)
  {
    if t != [] {
      assert (s + t)[..|s + t| - 1] == s + t[..|t| - 1];
      AccumulateConcat(minScale, s, t[..|t| - 1]);
    } else {
      assert s + t == s;
    }
  }

  /** Starting from 0 or from a positive minimum, the accumulation yields the
      smallest positive value among the start and the scales, or 0 when there
      is none: non-positive scales never take part. */
  lemma {:induction false} AccumulateIsMinPositive(minScale: real, scales: seq<real>)
    requires minScale >= 0.0
    ensures var r := AccumulateMinScale(minScale, scales);
      && r >= 0.0
      && (r == 0.0 <==> minScale == 0.0 && forall x :: x in scales ==> x <= 0.0)
      && (r > 0.0 ==> (r == minScale || r in scales))
      && (r > 0.0 && minScale > 0.0 ==> r <= minScale)
      && (forall x :: x in scales && x > 0.0 ==> r <= x)
  {
    if scales != [] {
      var init := scales[..|scales| - 1];
      var last := scales[|scales| - 1];
      var a := AccumulateMinScale(minScale, init);
      AccumulateIsMinPositive(minScale, init);
      assert scales == init + [last];
      assert AccumulateMinScale(minScale, scales) == UpdateMinScale(a, last);
      assert forall x :: x in scales <==> x in init || x == last;
      if minScale == 0.0 && forall x :: x in scales ==> x <= 0.0 {
        assert forall x :: x in init ==> x <= 0.0;
        assert last in scales;
      }
      if UpdateMinScale(a, last) == 0.0 {
        assert a == 0.0 && last <= 0.0;
      }
    }
  }

  /** The recursive accumulation over a layer and its descendants: the
      layer's own scale first, then each child's subtree in order. */
  method ComputeMinImageToModelScaleFrom(layer: Layer, minScale: real) returns (r: real)
    ensures r == AccumulateMinScale(minScale, Scales(layer))
    decreases layer
  {
    ghost var own := if layer.imageScale.Some? then [layer.imageScale.value] else [];
    r := minScale;
    if layer.imageScale.Some? {
      var scale := layer.imageScale.value;
      if scale > 0.0 && (r <= 0.0 || scale < r) {
        r := scale;
      }
    }
    assert r == AccumulateMinScale(minScale, own) by {
      assert own != [] ==> own[..|own| - 1] == [];
    }
    var i := 0;
    while i < |layer.children|
      invariant 0 <= i <= |layer.children|
      invariant r == AccumulateMinScale(minScale, own + ChildrenScales(layer.children[..i]))
    {
      var child := layer.children[i];
      r := ComputeMinImageToModelScaleFrom(child, r);
      AccumulateChildStep(minScale, own, layer.children, i);
      i := i + 1;
    }
    assert layer.children[..i] == layer.children;
  }

  /** Accumulating one more child subtree extends the accumulation over the
      children before it. */
  lemma AccumulateChildStep(minScale: real, own: seq<real>, children: seq<Layer>, i: nat)
    requires i < |children|
    ensures AccumulateMinScale(minScale, own + ChildrenScales(children[..i + 1]))
         == AccumulateMinScale(AccumulateMinScale(minScale, own + ChildrenScales(children[..i])), Scales(children[i]))
  {
    assert children[..i + 1][..i] == children[..i];
    assert ChildrenScales(children[..i + 1]) == ChildrenScales(children[..i]) + Scales(children[i]);
    assert own + ChildrenScales(children[..i + 1]) == (own + ChildrenScales(children[..i])) + Scales(children[i]);
    AccumulateConcat(minScale, own + ChildrenScales(children[..i]), Scales(children[i]));
  }

  /** The smallest positive image scale in the tree, or 0 if no image layer
      has a positive scale. */
  method ComputeMinImageToModelScale(layer: Layer) returns (r: real)
    ensures r >= 0.0
    ensures r == 0.0 <==> forall x :: x in Scales(layer) ==> x <= 0.0
    ensures r > 0.0 ==> r in Scales(layer)
    ensures forall x :: x in Scales(layer) && x > 0.0 ==> r <= x
  {
    r := ComputeMinImageToModelScaleFrom(layer, 0.0);
    AccumulateIsMinPositive(0.0, Scales(layer));
  }

  // ---------------------------------------------------------------------------
  // Maximum visible model bounds

  /** The empty rectangle without model bounds, the bounds themselves at
      orientation 0, and otherwise the bounding box of the bounds rotated
      about their centre, which the geometry library computes. */
  function ComputeMaxVisibleModelBounds(modelBounds: Option<Rect>, orientation: real,
                                        rotatedBounds: (Rect, real) -> Rect): (r: Rect)
    ensures modelBounds.None? ==> r == EmptyRect
    ensures modelBounds.Some? && orientation == 0.0 ==> r == modelBounds.value
    ensures modelBounds.Some? && orientation != 0.0 ==> r == rotatedBounds(modelBounds.value, orientation)
  {
    if modelBounds.None? then EmptyRect
    else if orientation == 0.0 then modelBounds.value
    else rotatedBounds(modelBounds.value, orientation)
  }

  /** A layer tree without model bounds allows no zooming out at all. */
  lemma NoModelBoundsNoMinZoom(viewBounds: Rect, orientation: real, rotatedBounds: (Rect, real) -> Rect)
    ensures ComputeMinZoomFactor(viewBounds, ComputeMaxVisibleModelBounds(None, orientation, rotatedBounds)) == 0.0
  {
  }

  // ---------------------------------------------------------------------------
  // Default and maximum zoom factors

  datatype ZoomFactors = ZoomFactors(defaultZoomFactor: real, maxZoomFactor: real)

  /** With a positive minimum image scale the default zoom shows one image
      pixel per view pixel and the maximum is 32 times that; otherwise the
      default is the minimum zoom and the maximum is 1000 times it. */
  function DeriveZoomFactors(minZoomFactor: real, minScale: real): (z: ZoomFactors)
    ensures minScale > 0.0 ==> z.defaultZoomFactor * minScale == 1.0 && z.maxZoomFactor == 32.0 * z.defaultZoomFactor
    ensures minScale <= 0.0 ==> z.defaultZoomFactor == minZoomFactor && z.maxZoomFactor == 1000.0 * minZoomFactor
    ensures minScale > 0.0 || minZoomFactor >= 0.0 ==> 0.0 <= z.defaultZoomFactor <= z.maxZoomFactor
  {
    if minScale > 0.0 then ZoomFactors(1.0 / minScale, 32.0 / minScale)
    else ZoomFactors(minZoomFactor, 1000.0 * minZoomFactor)
  }

  /** A viewport: the view bounds, the orientation in radians and the zoom factor. */
  class Viewport {
    var viewBounds: Rect
    var orientation: real
    var zoomFactor: real

    constructor (viewBounds: Rect, orientation: real, zoomFactor: real)
      ensures this.viewBounds == viewBounds && this.orientation == orientation && this.zoomFactor == zoomFactor
    {
      this.viewBounds := viewBounds;
      this.orientation := orientation;
      this.zoomFactor := zoomFactor;
    }
  }

  /** The canvas's adjustable-view properties. */
  class LayerCanvas {
    var maxVisibleModelBounds: Rect
    var minZoomFactor: real
    var maxZoomFactor: real
    var defaultZoomFactor: real

    /** The zoom factors are ordered: 0 <= min, 0 <= default <= max. */
    ghost predicate Valid()
      reads this
    {
      0.0 <= minZoomFactor && 0.0 <= defaultZoomFactor <= maxZoomFactor
    }

    constructor ()
      ensures Valid()
      ensures maxVisibleModelBounds == EmptyRect
      ensures minZoomFactor == 0.0 && maxZoomFactor == 0.0 && defaultZoomFactor == 0.0
    {
      maxVisibleModelBounds := EmptyRect;
      minZoomFactor := 0.0;
      maxZoomFactor := 0.0;
      defaultZoomFactor := 0.0;
    }

    /** Recomputes the bounds and the three zoom factors from the layer tree
        and the viewport; the rotated bounds come from the geometry library. */
    method UpdateAdjustableViewProperties(layer: Layer, viewport: Viewport, rotatedBounds: (Rect, real) -> Rect)
      modifies this
      ensures Valid()
      ensures maxVisibleModelBounds == ComputeMaxVisibleModelBounds(layer.modelBounds, viewport.orientation, rotatedBounds)
      ensures minZoomFactor == ComputeMinZoomFactor(viewport.viewBounds, maxVisibleModelBounds)
      ensures (forall x :: x in Scales(layer) ==> x <= 0.0) ==>
        ZoomFactors(defaultZoomFactor, maxZoomFactor) == DeriveZoomFactors(minZoomFactor, 0.0)
      ensures !(forall x :: x in Scales(layer) ==> x <= 0.0) ==>
        exists s :: s in Scales(layer) && s > 0.0 && (forall x :: x in Scales(layer) && x > 0.0 ==> s <= x)
          && ZoomFactors(defaultZoomFactor, maxZoomFactor) == DeriveZoomFactors(minZoomFactor, s)
    {
      maxVisibleModelBounds := ComputeMaxVisibleModelBounds(layer.modelBounds, viewport.orientation, rotatedBounds);
      minZoomFactor := ComputeMinZoomFactor(viewport.viewBounds, maxVisibleModelBounds);
      var minScale := ComputeMinImageToModelScale(layer);
      var zoom := DeriveZoomFactors(minZoomFactor, minScale);
      defaultZoomFactor := zoom.defaultZoomFactor;
      maxZoomFactor := zoom.maxZoomFactor;
      if minScale > 0.0 {
        assert minScale in Scales(layer) && (forall x :: x in Scales(layer) && x > 0.0 ==> minScale <= x)
          && ZoomFactors(defaultZoomFactor, maxZoomFactor) == DeriveZoomFactors(minZoomFactor, minScale);
      } else {
        assert forall x :: x in Scales(layer) ==> x <= 0.0;
      }
    }
  }

  // ---------------------------------------------------------------------------
  // Navigation control

  /** The zoom factor after one scale step: 10 percent of the old factor per
      unit of scale direction. */
  function ScaledZoomFactor(oldZoomFactor: real, scaleDir: real): (z: real)
    ensures scaleDir == 0.0 ==> z == oldZoomFactor
    ensures oldZoomFactor > 0.0 && scaleDir > 0.0 ==> z > oldZoomFactor
    ensures oldZoomFactor > 0.0 && scaleDir < 0.0 ==> z < oldZoomFactor
    ensures oldZoomFactor > 0.0 && scaleDir > -10.0 ==> z > 0.0
  {
    var factor := 1.0 + 0.1 * scaleDir;
    ProductOfPositives(factor, oldZoomFactor);
    factor * oldZoomFactor
  }

  lemma ProductOfPositives(a: real, b: real)
    ensures a > 0.0 && b > 0.0 ==> a * b > 0.0
  {
  }

  /** The navigation control's model: it acts on the canvas's viewport. */
  class NavControlModelImpl {
    const viewport: Viewport

    constructor (viewport: Viewport)
      ensures this.viewport == viewport
    {
      this.viewport := viewport;
    }

    method HandleScale(scaleDir: real)
      modifies viewport
      ensures viewport.zoomFactor == ScaledZoomFactor(old(viewport.zoomFactor), scaleDir)
      ensures viewport.viewBounds == old(viewport.viewBounds) && viewport.orientation == old(viewport.orientation)
    {
      var oldZoomFactor := viewport.zoomFactor;
      var newZoomFactor := (1.0 + 0.1 * scaleDir) * oldZoomFactor;
      viewport.zoomFactor := newZoomFactor;
    }
  }
}
