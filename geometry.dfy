// Axis-aligned bounding boxes of the player and of the static platforms,
// and the overlap test that every collision decision of the game uses.

module Geometry {

  /** Side of the player's square collision box, in pixels. */
  const PlayerSize: real := 32.0

  /** A bounding box as the game builds it: edges plus the two sizes. */
  datatype Box = Box(top: real, bottom: real, left: real, right: real, height: real, width: real)

  /** A static platform element, given by its layout offsets in whole pixels. */
  datatype Platform = Platform(offsetTop: int, offsetLeft: int, offsetWidth: nat, offsetHeight: nat)

  /** The edges agree with the sizes and no side is inverted. */
  predicate WellFormed(b: Box) {
    b.top <= b.bottom && b.left <= b.right &&
    b.bottom - b.top == b.height && b.right - b.left == b.width
  }

  /** Bounding box of a platform element. */
  function GetBounds(p: Platform): (b: Box)
    ensures WellFormed(b)
    ensures b.top == p.offsetTop as real && b.left == p.offsetLeft as real
    ensures b.height == p.offsetHeight as real && b.width == p.offsetWidth as real
  {
    Box(p.offsetTop as real, (p.offsetTop + p.offsetHeight) as real,
        p.offsetLeft as real, (p.offsetLeft + p.offsetWidth) as real,
        p.offsetHeight as real, p.offsetWidth as real)
  }

  /** The player's collision box with its top-left corner at (x, y). */
  function PlayerBounds(x: real, y: real): (b: Box)
    ensures WellFormed(b)
    ensures b.top == y && b.left == x && b.height == PlayerSize && b.width == PlayerSize
  {
    Box(y, y + PlayerSize, x, x + PlayerSize, PlayerSize, PlayerSize)
  }

  /** isColliding: the boxes overlap unless they are apart, or only touch, on some axis. */
  predicate Colliding(a: Box, b: Box)
    // equivalently, the open extents of the two boxes intersect on both axes
    ensures Colliding(a, b) <==>
      (a.left < b.right && b.left < a.right) && (a.top < b.bottom && b.top < a.bottom)
  {
    !(a.left >= b.right || a.right <= b.left || a.top >= b.bottom || a.bottom <= b.top)
  }

  /** (x, y) lies strictly inside the box. */
  predicate Inside(b: Box, x: real, y: real) {
    b.left < x < b.right && b.top < y < b.bottom
  }

  lemma CollidingSymmetric(a: Box, b: Box)
    ensures Colliding(a, b) <==> Colliding(b, a)
  {
  }

  /** Boxes whose edges coincide on one axis do not collide. */
  lemma TouchingIsNotColliding(a: Box, b: Box)
    requires a.bottom == b.top || a.top == b.bottom || a.right == b.left || a.left == b.right
    ensures !Colliding(a, b) && !Colliding(b, a)
  {
  }

  /** For boxes of positive area the test agrees with geometry: they collide
      exactly when some point lies strictly inside both of them. (A box of zero
      width or height can still be reported as colliding; it has no inside.) */
  lemma CollidingIffCommonInterior(a: Box, b: Box)
    requires a.left < a.right && a.top < a.bottom
    requires b.left < b.right && b.top < b.bottom
    ensures Colliding(a, b) <==> exists x, y :: Inside(a, x, y) && Inside(b, x, y)
  {
    if Colliding(a, b) {
      var lo := if a.left < b.left then b.left else a.left;
      var hi := if a.right < b.right then a.right else b.right;
      var up := if a.top < b.top then b.top else a.top;
      var dn := if a.bottom < b.bottom then a.bottom else b.bottom;
      var x, y := (lo + hi) / 2.0, (up + dn) / 2.0;
      assert Inside(a, x, y) && Inside(b, x, y);
    }
  }

  /** A player placed with its bottom on a platform's top, as a landing does,
      touches the platform without colliding with it, whatever x is. */
  lemma LandedPlayerTouches(x: real, p: Platform)
    ensures PlayerBounds(x, GetBounds(p).top - PlayerSize).bottom == GetBounds(p).top
    ensures !Colliding(PlayerBounds(x, GetBounds(p).top - PlayerSize), GetBounds(p))
  {
  }

  /** A player placed with its top on a platform's bottom, as a ceiling hit does,
      touches the platform without colliding with it. */
  lemma BumpedPlayerTouches(x: real, p: Platform)
    ensures PlayerBounds(x, GetBounds(p).bottom).top == GetBounds(p).bottom
    ensures !Colliding(PlayerBounds(x, GetBounds(p).bottom), GetBounds(p))
  {
  }
}
