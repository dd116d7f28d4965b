/** Axis-aligned bounding boxes and the strict overlap test to which every
    gameplay collision of the shooter reduces (game.js:159-166). */
module Collision {

  /** Anything with a position and a size: the shape that `checkCollision` reads. */
  datatype Box = Box(x: real, y: real, width: real, height: real)

  /** A box with positive extent in both directions (every entity of the game is one). */
  predicate Proper(b: Box) {
    b.width > 0.0 && b.height > 0.0
  }

  /** The point (px, py) lies strictly inside the box. */
  predicate StrictlyInside(b: Box, px: real, py: real) {
    b.x < px < b.x + b.width && b.y < py < b.y + b.height
  }

  /** The strict overlap test of the game. Boxes that only share an edge,
      on either axis and on either side, never collide. */
  function CheckCollision(a: Box, b: Box): (r: bool)
    ensures a.x + a.width == b.x || b.x + b.width == a.x ==> !r
    ensures a.y + a.height == b.y || b.y + b.height == a.y ==> !r
  {
    a.x < b.x + b.width &&
    a.x + a.width > b.x &&
    a.y < b.y + b.height &&
    a.y + a.height > b.y
  }

  /** The test does not depend on the order of its arguments. */
  lemma CollisionSymmetric(a: Box, b: Box)
    ensures CheckCollision(a, b) == CheckCollision(b, a)
  {
  }

  /** For proper boxes, the test holds exactly when some point lies strictly
      inside both boxes: it is the geometric intersection of their interiors. */
  lemma CollisionMeansCommonPoint(a: Box, b: Box)
    requires Proper(a) && Proper(b)
    ensures CheckCollision(a, b) <==>
            exists px: real, py: real :: StrictlyInside(a, px, py) && StrictlyInside(b, px, py)
  {
    if CheckCollision(a, b) {
      var lox := if a.x < b.x then b.x else a.x;
      var hix := if a.x + a.width < b.x + b.width then a.x + a.width else b.x + b.width;
      var loy := if a.y < b.y then b.y else a.y;
      var hiy := if a.y + a.height < b.y + b.height then a.y + a.height else b.y + b.height;
      var px, py := (lox + hix) / 2.0, (loy + hiy) / 2.0;
      assert StrictlyInside(a, px, py) && StrictlyInside(b, px, py);
    }
  }
}
