/**
 * The hit test shared by both entry points: does the fingertip pixel lie in
 * the fruit's rectangle, whose top-left corner is `(fx, fy)` and whose
 * size is `fw` by `fh`? All four edges belong to the rectangle.
 */
module HitTester {
  import opened Common

  predicate Hit(p: Point, fx: int, fy: int, fw: int, fh: int)
  {
    (p.x >= fx && p.x <= fx + fw) && (p.y >= fy && p.y <= fy + fh)
  }

  /** The four corners are hits; one pixel beyond any edge is not. */
  lemma EdgesInclusive(fx: int, fy: int, fw: Dim, fh: Dim)
    ensures Hit(Point(fx, fy), fx, fy, fw, fh)
    ensures Hit(Point(fx + fw, fy), fx, fy, fw, fh)
    ensures Hit(Point(fx, fy + fh), fx, fy, fw, fh)
    ensures Hit(Point(fx + fw, fy + fh), fx, fy, fw, fh)
    ensures !Hit(Point(fx - 1, fy), fx, fy, fw, fh)
    ensures !Hit(Point(fx + fw + 1, fy), fx, fy, fw, fh)
    ensures !Hit(Point(fx, fy - 1), fx, fy, fw, fh)
    ensures !Hit(Point(fx, fy + fh + 1), fx, fy, fw, fh)
  {
  }

  /** The boundary cases for the rectangle (100, 100, 50, 50). */
  lemma BoundaryExample()
    ensures Hit(Point(100, 100), 100, 100, 50, 50)
    ensures Hit(Point(150, 150), 100, 100, 50, 50)
    ensures !Hit(Point(151, 150), 100, 100, 50, 50)
    ensures !Hit(Point(100, 99), 100, 100, 50, 50)
  {
    EdgesInclusive(100, 100, 50, 50);
  }
}
