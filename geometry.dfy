/**
 * pygame's Rect, as the game uses it: an integer rectangle with the
 * operations colliderect, move, center assignment and clamp_ip, plus the
 * four facing directions shared by the player and the enemies.
 */
module Geometry {

  /** A rectangle with integer top-left corner and non-negative size. */
  datatype Rect = Rect(x: int, y: int, w: nat, h: nat)
  {
    function Right(): int { x + w }
    function Bottom(): int { y + h }
    function CenterX(): int { x + w / 2 }
    function CenterY(): int { y + h / 2 }

    /** Rect.move(dx, dy) */
    function Move(dx: int, dy: int): (r: Rect)
      ensures r.w == w && r.h == h
      ensures r.CenterX() == CenterX() + dx && r.CenterY() == CenterY() + dy
    {
      Rect(x + dx, y + dy, w, h)
    }

    /** `rect.center = (cx, cy)`: same size, new centre. */
    function WithCenter(cx: int, cy: int): (r: Rect)
      ensures r.w == w && r.h == h
      ensures r.CenterX() == cx && r.CenterY() == cy
    {
      Rect(cx - w / 2, cy - h / 2, w, h)
    }
  }

  /** Rect.colliderect: the interiors overlap. Touching edges do not
      collide, and a rectangle of zero width or height collides with
      nothing. */
  predicate Collide(a: Rect, b: Rect)
  {
    && a.w > 0 && a.h > 0 && b.w > 0 && b.h > 0
    && a.x < b.Right() && b.x < a.Right()
    && a.y < b.Bottom() && b.y < a.Bottom()
  }

  /** `any(r.colliderect(t) for t in rects)` */
  predicate CollidesAny(r: Rect, rects: seq<Rect>)
  {
    exists i :: 0 <= i < |rects| && Collide(r, rects[i])
  }

  /** Rect.collidepoint: half-open on the right and bottom edges. */
  predicate ContainsPoint(r: Rect, px: int, py: int)
  {
    r.x <= px < r.Right() && r.y <= py < r.Bottom()
  }

  /** r lies entirely within bounds. */
  predicate Inside(r: Rect, bounds: Rect)
  {
    bounds.x <= r.x && r.Right() <= bounds.Right() && bounds.y <= r.y && r.Bottom() <= bounds.Bottom()
  }

  /** Symmetry of colliderect, and edge contact is not a collision. */
  lemma CollideSymmetric(a: Rect, b: Rect)
    ensures Collide(a, b) <==> Collide(b, a)
  {
  }

  lemma {:induction false} TouchingDoesNotCollide(a: Rect, b: Rect)
    requires a.Right() == b.x || a.Bottom() == b.y
    ensures !Collide(a, b) && !Collide(b, a)
  {
  }

  /** One axis of clamp_ip: a span of length `size` at `pos` moved into
      [lo, lo + len); a span at least as long as the bounds is centred. */
  function ClampAxis(pos: int, size: nat, lo: int, len: nat): (p: int)
    ensures size <= len ==> lo <= p && p + size <= lo + len
    ensures lo <= pos && pos + size <= lo + len ==> p == pos
  {
    if size >= len then lo + len / 2 - size / 2
    else if pos < lo then lo
    else if pos + size > lo + len then lo + len - size
    else pos
  }

  /** Rect.clamp_ip(bounds) */
  function Clamp(r: Rect, bounds: Rect): (c: Rect)
    ensures c.w == r.w && c.h == r.h
    ensures r.w <= bounds.w && r.h <= bounds.h ==> Inside(c, bounds)
    ensures Inside(r, bounds) ==> c == r
  {
    Rect(ClampAxis(r.x, r.w, bounds.x, bounds.w), ClampAxis(r.y, r.h, bounds.y, bounds.h), r.w, r.h)
  }

  /** The four facing directions ("right", "up", "left", "down"). */
  datatype Facing = Up | Down | Left | Right
  {
    /** The unit step of `dir_vec` / `dir_map`: screen y grows downwards. */
    function Vector(): (v: (int, int))
      ensures v.0 * v.0 + v.1 * v.1 == 1
    {
      match this
      case Up => (0, -1)
      case Down => (0, 1)
      case Left => (-1, 0)
      case Right => (1, 0)
    }
  }
}
