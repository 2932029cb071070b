/**
 * The camera of core/camera.py: a world-to-screen transform with a zoom
 * kept in [0.5, 1.5] and an offset that centres the view on a target,
 * clamped so that the view stays inside the world when its size is known.
 */
module CameraView {
  import opened Arith
  import opened Geometry
  import opened Wrappers

  const MinZoom: real := 0.5
  const MaxZoom: real := 1.5

  /** The zoom that set_zoom stores for a requested amount. */
  function ClampZoom(amount: real): (z: real)
    ensures MinZoom <= z <= MaxZoom
    ensures MinZoom <= amount <= MaxZoom ==> z == amount
    ensures amount < MinZoom ==> z == MinZoom
    ensures MaxZoom < amount ==> z == MaxZoom
  {
    MaxReal(MinZoom, MinReal(MaxZoom, amount))
  }

  /** One axis of follow: the offset that puts `center` in the middle of a
      viewport of `viewport` screen pixels at `zoom`, clamped to
      [0, max(0, world - viewport / zoom)] when the world size is known. */
  function FollowAxis(center: int, viewport: int, zoom: real, world: Option<int>): (offset: real)
    requires 0.0 < zoom
    ensures world.None? ==> offset == center as real - viewport as real / (2.0 * zoom)
    ensures world.Some? ==> 0.0 <= offset <= MaxReal(0.0, world.value as real - viewport as real / zoom)
    ensures world.Some? && viewport as real / zoom <= world.value as real ==>
              offset + viewport as real / zoom <= world.value as real
    ensures world.Some? &&
              0.0 <= center as real - viewport as real / (2.0 * zoom) <= world.value as real - viewport as real / zoom ==>
              offset + viewport as real / (2.0 * zoom) == center as real
  {
    var desired := center as real - viewport as real / (2.0 * zoom);
    match world
    case None => desired
    case Some(size) =>
      var maxOffset := MaxReal(0.0, size as real - viewport as real / zoom);
      MaxReal(0.0, MinReal(desired, maxOffset))
  }

  class Camera {
    var offsetX: real
    var offsetY: real
    var zoom: real
    const viewportWidth: int
    const viewportHeight: int
    const worldWidth: Option<int>
    const worldHeight: Option<int>

    ghost predicate Valid()
      reads this`zoom
    {
      MinZoom <= zoom <= MaxZoom
    }

    constructor (viewportWidth: int, viewportHeight: int, worldWidth: Option<int> := None, worldHeight: Option<int> := None)
      ensures Valid()
      ensures offsetX == 0.0 && offsetY == 0.0 && zoom == 1.0
      ensures this.viewportWidth == viewportWidth && this.viewportHeight == viewportHeight
      ensures this.worldWidth == worldWidth && this.worldHeight == worldHeight
    {
      offsetX, offsetY := 0.0, 0.0;
      zoom := 1.0;
      this.viewportWidth, this.viewportHeight := viewportWidth, viewportHeight;
      this.worldWidth, this.worldHeight := worldWidth, worldHeight;
    }

    /** Centre the view on the target's centre; the result depends only on
        that centre, the zoom, the viewport and the world size, so following
        the same target twice changes nothing the second time. */
    method Follow(target: Rect)
      requires Valid()
      modifies this`offsetX, this`offsetY
      ensures offsetX == FollowAxis(target.CenterX(), viewportWidth, zoom, worldWidth)
      ensures offsetY == FollowAxis(target.CenterY(), viewportHeight, zoom, worldHeight)
    {
      var halfWidth := viewportWidth as real / (2.0 * zoom);
      var halfHeight := viewportHeight as real / (2.0 * zoom);
      var desiredX := target.CenterX() as real - halfWidth;
      var desiredY := target.CenterY() as real - halfHeight;
      if worldWidth.Some? {
        var maxX := MaxReal(0.0, worldWidth.value as real - viewportWidth as real / zoom);
        offsetX := MaxReal(0.0, MinReal(desiredX, maxX));
      } else {
        offsetX := desiredX;
      }
      if worldHeight.Some? {
        var maxY := MaxReal(0.0, worldHeight.value as real - viewportHeight as real / zoom);
        offsetY := MaxReal(0.0, MinReal(desiredY, maxY));
      } else {
        offsetY := desiredY;
      }
    }

    /** Screen position of a world point: within one pixel of the exact
        transform (p - offset) * zoom, truncated toward zero. */
    function ApplyPoint(px: real, py: real): (s: (int, int))
      reads this
      ensures (px - offsetX) * zoom - 1.0 < s.0 as real < (px - offsetX) * zoom + 1.0
      ensures (py - offsetY) * zoom - 1.0 < s.1 as real < (py - offsetY) * zoom + 1.0
    {
      (Trunc((px - offsetX) * zoom), Trunc((py - offsetY) * zoom))
    }

    /** Screen rectangle of a world rectangle: its corner is where
        ApplyPoint puts the world corner, its size the scaled size rounded
        down. */
    function Apply(r: Rect): (s: Rect)
      reads this
      requires Valid()
      ensures (s.x, s.y) == ApplyPoint(r.x as real, r.y as real)
      ensures s.w as real <= r.w as real * zoom < s.w as real + 1.0
      ensures s.h as real <= r.h as real * zoom < s.h as real + 1.0
    {
      var corner := ApplyPoint(r.x as real, r.y as real);
      var width := r.w as real * zoom;
      var height := r.h as real * zoom;
      NonNegMul(r.w as real, zoom);
      NonNegMul(r.h as real, zoom);
      Rect(corner.0, corner.1, Trunc(width), Trunc(height))
    }

    method SetZoom(amount: real)
      modifies this`zoom
      ensures Valid()
      ensures zoom == ClampZoom(amount)
    {
      zoom := MaxReal(MinZoom, MinReal(MaxZoom, amount));
    }
  }
}
